/**
 The approval relay's callback endpoint in front of the outbound machine: the signed timestamp, the nonce table
 and its purge, and the event table. Requests, purges and every other event of the machine interleave freely.
 */
module OutboundCallback {
  import opened Basics
  import opened Outbound

  type Nonce = string

  /** A row of integration_nonces. */
  datatype Bound = Bound(payloadHash: Digest, expires: int)

  /** `authentic`: the nonce is well formed and the signature covers timestamp, nonce and body. */
  datatype Request = Request(authentic: bool, timestamp: int, nonce: Nonce, payloadHash: Digest, event: EventId,
                             approvalId: string, decision: bool, user: Name)

  datatype Gate = Gate(nonces: map<Nonce, Bound>, s: System)

  datatype GateEvent =
    | Deliver(t: ThreadId, r: Request, now: int)
    | PurgeNonces(now: int)
    | Inner(e: Event)

  const BEGIN: Local := Local(Start, NO_PASS, Isolation)

  function OpOf(r: Request): Op {
    Callback(r.event, r.payloadHash, r.approvalId, r.decision, r.user)
  }

  predicate Timely(skew: nat, r: Request, now: int) {
    0 - skew <= now - r.timestamp <= skew
  }

  /** The nonce is bound to another payload. */
  predicate Reused(nonces: map<Nonce, Bound>, r: Request) {
    r.nonce in nonces && nonces[r.nonce].payloadHash != r.payloadHash
  }

  predicate Admitted(skew: nat, nonces: map<Nonce, Bound>, r: Request, now: int) {
    r.authentic && Timely(skew, r, now) && !Reused(nonces, r)
  }

  function Bind(skew: nat, nonces: map<Nonce, Bound>, r: Request, now: int): map<Nonce, Bound> {
    if r.nonce in nonces then nonces else nonces[r.nonce := Bound(r.payloadHash, now + 2 * skew)]
  }

  function Unexpired(nonces: map<Nonce, Bound>, now: int): map<Nonce, Bound> {
    map n | n in nonces && nonces[n].expires > now :: nonces[n]
  }

  /** Only an admitted request starts a callback thread. */
  predicate OnlyInner(e: Event) {
    e.Spawn? ==> !e.op.Callback?
  }

  function GateNext(sha: Hash, skew: nat, g: Gate, e: GateEvent): Gate {
    match e
    case Deliver(t, r, now) =>
      if Admitted(skew, g.nonces, r, now)
      then Gate(Bind(skew, g.nonces, r, now), Next(sha, g.s, Spawn(t, OpOf(r)))) else g
    case PurgeNonces(now) => g.(nonces := Unexpired(g.nonces, now))
    case Inner(e) => if OnlyInner(e) then g.(s := Next(sha, g.s, e)) else g
  }

  function GateRun(sha: Hash, skew: nat, g: Gate, events: seq<GateEvent>): Gate
    decreases |events|, 0
  {
    if events == [] then g else GateFrom(sha, skew, GateNext(sha, skew, g, events[0]), events[1..])
  }

  /** Going on from where an event has led. */
  function GateFrom(sha: Hash, skew: nat, g: Gate, events: seq<GateEvent>): Gate
    decreases |events|, 1
  {
    GateRun(sha, skew, g, events)
  }

  lemma {:induction false} GateAppend(sha: Hash, skew: nat, g: Gate, first: seq<GateEvent>, second: seq<GateEvent>)
    ensures GateRun(sha, skew, g, first + second) == GateRun(sha, skew, GateRun(sha, skew, g, first), second)
    decreases |first|
  {
    if first == [] {
      assert first + second == second;
    } else {
      assert (first + second)[1..] == first[1..] + second;
      GateAppend(sha, skew, GateNext(sha, skew, g, first[0]), first[1..], second);
    }
  }

  /** The machine behind the endpoint runs as the outbound machine does. */
  lemma {:induction false} GateIsRun(sha: Hash, skew: nat, g: Gate, events: seq<GateEvent>)
    ensures exists inner :: GateRun(sha, skew, g, events).s == Run(sha, g.s, inner)
    decreases |events|
  {
    if events == [] {
      assert Run(sha, g.s, []) == g.s;
    } else {
      var g1 := GateNext(sha, skew, g, events[0]);
      GateIsRun(sha, skew, g1, events[1..]);
      var inner :| GateRun(sha, skew, g1, events[1..]).s == Run(sha, g1.s, inner);
      var first := if events[0].Deliver? then Spawn(events[0].t, OpOf(events[0].r))
                   else if events[0].Inner? then events[0].e else Crash;
      assert GateRun(sha, skew, g, events) == GateRun(sha, skew, g1, events[1..]);
      if g1.s != g.s {
        assert ([first] + inner)[1..] == inner && Next(sha, g.s, first) == g1.s;
        assert Run(sha, g.s, [first] + inner) == Run(sha, g1.s, inner);
      }
    }
  }

  // ------------------------------------------------------------------------------------------
  // Nonces
  // ------------------------------------------------------------------------------------------

  /** The run without the requests that reuse the nonce for another payload. */
  function WithoutReuse(events: seq<GateEvent>, nonce: Nonce, hash: Digest): seq<GateEvent>
    decreases |events|
  {
    if events == [] then []
    else
      var rest := WithoutReuse(events[1..], nonce, hash);
      if events[0].Deliver? && events[0].r.nonce == nonce && events[0].r.payloadHash != hash then rest
      else [events[0]] + rest
  }

  predicate PurgesBefore(events: seq<GateEvent>, time: int) {
    forall i :: 0 <= i < |events| && events[i].PurgeNonces? ==> events[i].now < time
  }

  lemma {:induction false} PurgesBeforeRest(events: seq<GateEvent>, time: int)
    requires events != [] && PurgesBefore(events, time)
    ensures PurgesBefore(events[1..], time)
  {
    forall i | 0 <= i < |events[1..]| && events[1..][i].PurgeNonces?
      ensures events[1..][i].now < time
    {
      assert events[1..][i] == events[i + 1];
    }
  }

  /**
   A nonce stays bound to its first payload until a purge at or after its expiry. Until then requests that
   reuse it for another payload might as well not have been sent: the run without them ends in the same
   state, the transfer, the nonces and every thread included.
   */
  lemma {:induction false} ReusedNonceIsInert(sha: Hash, skew: nat, g: Gate, events: seq<GateEvent>, nonce: Nonce)
    requires nonce in g.nonces && PurgesBefore(events, g.nonces[nonce].expires)
    ensures var g' := GateRun(sha, skew, g, events);
            && nonce in g'.nonces && g'.nonces[nonce] == g.nonces[nonce]
            && g' == GateRun(sha, skew, g, WithoutReuse(events, nonce, g.nonces[nonce].payloadHash))
    decreases |events|
  {
    if events != [] {
      var hash := g.nonces[nonce].payloadHash;
      var rest := WithoutReuse(events[1..], nonce, hash);
      var g1 := GateNext(sha, skew, g, events[0]);
      PurgesBeforeRest(events, g.nonces[nonce].expires);
      ReusedNonceIsInert(sha, skew, g1, events[1..], nonce);
      if events[0].Deliver? && events[0].r.nonce == nonce && events[0].r.payloadHash != hash {
        assert g1 == g;
      } else {
        assert ([events[0]] + rest)[1..] == rest;
      }
    }
  }

  /**
   A signed request that is sent again while its timestamp is still accepted finds its nonce bound to its own
   payload, except in the one second in which the nonce expires and the timestamp is exactly `skew` old.
   */
  lemma {:induction false} ReplayMeetsItsNonce(sha: Hash, skew: nat, g: Gate, t: ThreadId, r: Request, bound: int,
                            events: seq<GateEvent>, now: int)
    requires r.nonce !in g.nonces && Admitted(skew, g.nonces, r, bound) && Timely(skew, r, now)
    requires PurgesBefore(events, now + 1)
    ensures var g' := GateRun(sha, skew, GateNext(sha, skew, g, Deliver(t, r, bound)), events);
            || (r.nonce in g'.nonces && g'.nonces[r.nonce].payloadHash == r.payloadHash)
            || now == bound + 2 * skew == r.timestamp + skew
  {
    var g1 := GateNext(sha, skew, g, Deliver(t, r, bound));
    if now < bound + 2 * skew {
      ReusedNonceIsInert(sha, skew, g1, events, r.nonce);
    }
  }

  /** In that second the nonce can be gone while the timestamp is accepted, so another payload may take it. */
  lemma BoundarySecond(sha: Hash, skew: nat, g: Gate, t: ThreadId, r: Request, other: Request, bound: int)
    requires r.nonce !in g.nonces && Admitted(skew, g.nonces, r, bound) && r.timestamp == bound + skew
    requires other.authentic && other.nonce == r.nonce && other.timestamp == r.timestamp
    ensures var g' := GateRun(sha, skew, g, [Deliver(t, r, bound), PurgeNonces(bound + 2 * skew)]);
            Admitted(skew, g'.nonces, other, bound + 2 * skew)
  {
    var g1 := GateNext(sha, skew, g, Deliver(t, r, bound));
    var events := [Deliver(t, r, bound), PurgeNonces(bound + 2 * skew)];
    assert events[1..] == [PurgeNonces(bound + 2 * skew)];
    var purged := GateNext(sha, skew, g1, PurgeNonces(bound + 2 * skew));
    assert GateRun(sha, skew, g1, events[1..]) == GateRun(sha, skew, purged, events[1..][1..]);
  }

  // ------------------------------------------------------------------------------------------
  // Event identifiers
  // ------------------------------------------------------------------------------------------

  /** The operation is a callback whose event identifier is recorded with another payload. */
  predicate Conflicts(callbacks: map<EventId, CallbackRow>, op: Op) {
    op.Callback? && op.event in callbacks && callbacks[op.event].payloadHash != op.payloadHash
  }

  predicate BeforeTable(pc: Pc) {
    pc.Start? || pc.Recording? || pc.Gone?
  }

  ghost predicate Recorded(callbacks: map<EventId, CallbackRow>, op: Op) {
    op.Callback? && op.event in callbacks && callbacks[op.event].payloadHash == op.payloadHash
  }

  /** A callback thread that has got past the event table has its own payload recorded there. */
  ghost predicate TableOk(s: System) {
    forall t :: t in s.threads && s.threads[t].op.Callback? && !BeforeTable(s.threads[t].local.pc) ==>
      Recorded(s.w.callbacks, s.threads[t].op)
  }

  /** A step keeps every recorded payload hash, and leads past the event table only with its own. */
  lemma ActKeepsEvents(sha: Hash, w: World, op: Op, l: Local, c: Choice)
    requires op.Callback? && !BeforeTable(l.pc) ==> Recorded(w.callbacks, op)
    ensures var (w', l') := Act(sha, w, op, l, c);
            && KeepsHashes(w, w')
            && (op.Callback? && !BeforeTable(l'.pc) ==> Recorded(w'.callbacks, op))
            && (Conflicts(w.callbacks, op) ==> w' == w)
  {
    if !Raises(l, c) {
      if InRelease(l.pc) {
        ReleaseKeepsEvents(sha, w, l);
      } else if !InScan(l.pc) && !InDecision(l.pc) {
        CommonKeepsEvents(w, op, l);
      }
    }
  }

  lemma ReleaseKeepsEvents(sha: Hash, w: World, l: Local)
    requires InRelease(l.pc)
    ensures ReleaseStep(sha, w, l).0.callbacks == w.callbacks && !BeforeTable(l.pc)
  {
  }

  lemma CommonKeepsEvents(w: World, op: Op, l: Local)
    requires op.Callback? && !BeforeTable(l.pc) ==> Recorded(w.callbacks, op)
    requires !InScan(l.pc) && !InRelease(l.pc) && !InDecision(l.pc)
    ensures var (w', l') := CommonStep(w, op, l);
            && KeepsHashes(w, w')
            && (op.Callback? && !BeforeTable(l'.pc) ==> Recorded(w'.callbacks, op))
            && (Conflicts(w.callbacks, op) ==> w' == w)
  {
  }

  ghost predicate KeepsHashes(w: World, w': World) {
    forall e :: e in w.callbacks ==> e in w'.callbacks && w'.callbacks[e].payloadHash == w.callbacks[e].payloadHash
  }

  lemma NextKeepsEvents(sha: Hash, s: System, e: Event)
    requires TableOk(s)
    ensures var s' := Next(sha, s, e); TableOk(s') && KeepsHashes(s.w, s'.w)
  {
    if e.Step? && e.t in s.threads {
      ActKeepsEvents(sha, s.w, s.threads[e.t].op, s.threads[e.t].local, e.c);
    }
  }

  lemma {:induction false} GateRunKeepsEvents(sha: Hash, skew: nat, g: Gate, events: seq<GateEvent>)
    requires TableOk(g.s)
    ensures var g' := GateRun(sha, skew, g, events); TableOk(g'.s) && KeepsHashes(g.s.w, g'.s.w)
    decreases |events|
  {
    if events != [] {
      match events[0] {
        case Deliver(t, r, now) => NextKeepsEvents(sha, g.s, Spawn(t, OpOf(r)));
        case PurgeNonces(_) =>
        case Inner(e) => NextKeepsEvents(sha, g.s, e);
      }
      GateRunKeepsEvents(sha, skew, GateNext(sha, skew, g, events[0]), events[1..]);
    }
  }

  /**
   An event identifier is bound to its first payload for ever. After any run of requests, purges and everything
   else, neither another request that uses it for another payload nor any step of such a request's thread
   changes the transfer, its files, its log or the event table.
   */
  lemma {:induction false} ReusedEventIsInert(sha: Hash, skew: nat, g: Gate, events: seq<GateEvent>, t: ThreadId,
                                              r: Request, now: int, c: Choice)
    requires TableOk(g.s) && Conflicts(g.s.w.callbacks, OpOf(r))
    ensures var g' := GateRun(sha, skew, g, events);
            && Conflicts(g'.s.w.callbacks, OpOf(r))
            && GateNext(sha, skew, g', Deliver(t, r, now)).s.w == g'.s.w
            && (t in g'.s.threads && g'.s.threads[t].op == OpOf(r) ==>
                  GateNext(sha, skew, g', Inner(Step(t, c))).s.w == g'.s.w)
  {
    GateRunKeepsEvents(sha, skew, g, events);
    var s' := GateRun(sha, skew, g, events).s;
    if t in s'.threads {
      ActKeepsEvents(sha, s'.w, s'.threads[t].op, s'.threads[t].local, c);
    }
  }

  /** In every run from a submission: once an event is recorded, no other payload under its identifier has an effect. */
  lemma {:induction false} EventIsBound(sha: Hash, skew: nat, bytes: Bytes, conflict: bool, provider: Provider,
                                        policy: Policy, first: seq<GateEvent>, second: seq<GateEvent>, t: ThreadId,
                                        r: Request, now: int, c: Choice)
    requires var g0 := Gate(map[], Submitted(sha, bytes, conflict, provider, policy));
             Conflicts(GateRun(sha, skew, g0, first).s.w.callbacks, OpOf(r))
    ensures var g0 := Gate(map[], Submitted(sha, bytes, conflict, provider, policy));
            var g' := GateRun(sha, skew, g0, first + second);
            && GateNext(sha, skew, g', Deliver(t, r, now)).s.w == g'.s.w
            && (t in g'.s.threads && g'.s.threads[t].op == OpOf(r) ==>
                  GateNext(sha, skew, g', Inner(Step(t, c))).s.w == g'.s.w)
  {
    var g0 := Gate(map[], Submitted(sha, bytes, conflict, provider, policy));
    GateRunKeepsEvents(sha, skew, g0, first);
    GateAppend(sha, skew, g0, first, second);
    ReusedEventIsInert(sha, skew, GateRun(sha, skew, g0, first), second, t, r, now, c);
  }

  /** The event is processed and no delivery of it is under way. */
  ghost predicate Settled(s: System, event: EventId) {
    && event in s.w.callbacks && s.w.callbacks[event].outcome.Processed?
    && forall t :: t in s.threads && s.threads[t].op.Callback? && s.threads[t].op.event == event ==>
         s.threads[t].local.pc.Start? || s.threads[t].local.pc.Gone?
  }

  /** A step of a delivery of a processed event ends it; a step of anything else leaves the event processed. */
  lemma ActKeepsSettled(sha: Hash, w: World, op: Op, l: Local, c: Choice, event: EventId)
    requires event in w.callbacks && w.callbacks[event].outcome.Processed?
    requires op.Callback? && op.event == event ==> l.pc.Start? || l.pc.Gone?
    ensures var (w', l') := Act(sha, w, op, l, c);
            && event in w'.callbacks && w'.callbacks[event].outcome.Processed?
            && (op.Callback? && op.event == event ==> w' == w && l'.pc.Gone?)
  {
    if Raises(l, c) || InScan(l.pc) {
    } else if InRelease(l.pc) {
      ReleaseKeepsEvents(sha, w, l);
    } else if InDecision(l.pc) {
      DeciderKeepsSettled(sha, w, op, l, c, event);
    } else {
      CommonKeepsSettled(w, op, l, event);
    }
  }

  lemma DeciderKeepsSettled(sha: Hash, w: World, op: Op, l: Local, c: Choice, event: EventId)
    requires event in w.callbacks && InDecision(l.pc)
    ensures var w' := DeciderStep(sha, w, op, l, c).0;
            event in w'.callbacks && w'.callbacks[event] == w.callbacks[event]
  {
  }

  lemma CommonKeepsSettled(w: World, op: Op, l: Local, event: EventId)
    requires event in w.callbacks && w.callbacks[event].outcome.Processed?
    requires op.Callback? && op.event == event ==> l.pc.Start? || l.pc.Gone?
    ensures var (w', l') := CommonStep(w, op, l);
            && event in w'.callbacks && w'.callbacks[event].outcome.Processed?
            && (op.Callback? && op.event == event ==> w' == w && l'.pc.Gone?)
  {
  }

  lemma NextKeepsSettled(sha: Hash, s: System, e: Event, event: EventId)
    requires Settled(s, event)
    ensures Settled(Next(sha, s, e), event)
  {
    if e.Step? && e.t in s.threads {
      ActKeepsSettled(sha, s.w, s.threads[e.t].op, s.threads[e.t].local, e.c, event);
    }
  }

  lemma {:induction false} GateRunKeepsSettled(sha: Hash, skew: nat, g: Gate, events: seq<GateEvent>, event: EventId)
    requires Settled(g.s, event)
    ensures Settled(GateRun(sha, skew, g, events).s, event)
    decreases |events|
  {
    if events != [] {
      match events[0] {
        case Deliver(t, r, now) => NextKeepsSettled(sha, g.s, Spawn(t, OpOf(r)), event);
        case PurgeNonces(_) =>
        case Inner(e) => NextKeepsSettled(sha, g.s, e, event);
      }
      GateRunKeepsSettled(sha, skew, GateNext(sha, skew, g, events[0]), events[1..], event);
    }
  }

  /**
   Replays of a processed event change nothing, for ever: after any run, neither a request that names the event,
   with whatever payload, nor any step of such a request's thread changes the transfer or the event table.
   */
  lemma {:induction false} ProcessedEventIsInert(sha: Hash, skew: nat, g: Gate, events: seq<GateEvent>, t: ThreadId,
                                                 r: Request, now: int, c: Choice)
    requires Settled(g.s, r.event)
    ensures var g' := GateRun(sha, skew, g, events);
            && Settled(g'.s, r.event)
            && GateNext(sha, skew, g', Deliver(t, r, now)).s.w == g'.s.w
            && (t in g'.s.threads && g'.s.threads[t].op.Callback? && g'.s.threads[t].op.event == r.event ==>
                  GateNext(sha, skew, g', Inner(Step(t, c))).s.w == g'.s.w)
  {
    GateRunKeepsSettled(sha, skew, g, events, r.event);
    var s' := GateRun(sha, skew, g, events).s;
    if t in s'.threads && s'.threads[t].op.Callback? && s'.threads[t].op.event == r.event {
      ActKeepsSettled(sha, s'.w, s'.threads[t].op, s'.threads[t].local, c, r.event);
    }
  }

  // ------------------------------------------------------------------------------------------
  // One request run on its own
  // ------------------------------------------------------------------------------------------

  function Inners(events: seq<Event>): seq<GateEvent> {
    if events == [] then [] else [Inner(events[0])] + Inners(events[1..])
  }

  /** The transfer and the nonces after one request that nothing interrupts, or that a crash cuts. */
  function Handled(sha: Hash, skew: nat, nonces: map<Nonce, Bound>, w: World, r: Request, now: int,
                   script: seq<Choice>): (map<Nonce, Bound>, World)
  {
    if Admitted(skew, nonces, r, now) then
      (Bind(skew, nonces, r, now), Alone(sha, w, OpOf(r), BEGIN, script, 0).0)
    else (nonces, w)
  }

  lemma {:induction false} InnerSteps(sha: Hash, skew: nat, g: Gate, t: ThreadId, script: seq<Choice>, i: nat)
    ensures GateRun(sha, skew, g, Inners(Steps(t, script, i))) == g.(s := Run(sha, g.s, Steps(t, script, i)))
    decreases |script| - i
  {
    if i < |script| {
      var e := Step(t, script[i]);
      assert Steps(t, script, i)[1..] == Steps(t, script, i + 1);
      assert Inners(Steps(t, script, i))[1..] == Inners(Steps(t, script, i + 1));
      InnerSteps(sha, skew, g.(s := Next(sha, g.s, e)), t, script, i + 1);
    }
  }

  /** Handling a request on its own is one of the runs of the endpoint. */
  lemma {:induction false} HandledIsRun(sha: Hash, skew: nat, g: Gate, t: ThreadId, r: Request, now: int,
                                        script: seq<Choice>)
    requires t !in g.s.threads
    ensures var g' := GateRun(sha, skew, g, [Deliver(t, r, now)] + Inners(Steps(t, script, 0)));
            (g'.nonces, g'.s.w) == Handled(sha, skew, g.nonces, g.s.w, r, now, script)
  {
    var steps := Inners(Steps(t, script, 0));
    var g1 := GateNext(sha, skew, g, Deliver(t, r, now));
    assert ([Deliver(t, r, now)] + steps)[1..] == steps;
    InnerSteps(sha, skew, g1, t, script, 0);
    if Admitted(skew, g.nonces, r, now) {
      AloneIsRun(sha, g1.s, t, script, 0);
    } else {
      NoThreadSteps(sha, g.s, t, script, 0);
    }
  }

  lemma {:induction false} NoThreadSteps(sha: Hash, s: System, t: ThreadId, script: seq<Choice>, i: nat)
    requires t !in s.threads
    ensures Run(sha, s, Steps(t, script, i)) == s
    decreases |script| - i
  {
    if i < |script| {
      assert Steps(t, script, i)[1..] == Steps(t, script, i + 1);
      NoThreadSteps(sha, s, t, script, i + 1);
    }
  }
}
