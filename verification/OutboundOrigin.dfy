/**
 Where the decisions in the log come from: over every run of the endpoint each one is traced back to the request or
 the approver that asked for it, and a relay decision to a request that named this transfer's approval.
 */
module OutboundOrigin {
  import opened Basics
  import opened Outbound
  import opened OutboundCallback

  /** The operation whose thread an event starts. */
  function Started(skew: nat, g: Gate, e: GateEvent): Option<Op> {
    match e
    case Deliver(t, r, now) => if Admitted(skew, g.nonces, r, now) && t !in g.s.threads then Some(OpOf(r)) else None
    case Inner(e) => if e.Spawn? && OnlyInner(e) && e.t !in g.s.threads then Some(e.op) else None
    case PurgeNonces(_) => None
  }

  function StartedBy(skew: nat, g: Gate, e: GateEvent): set<Op> {
    if Started(skew, g, e).Some? then {Started(skew, g, e).value} else {}
  }

  /** All operations a run has started. */
  function Asked(sha: Hash, skew: nat, g: Gate, events: seq<GateEvent>): set<Op>
    decreases |events|
  {
    if events == [] then {}
    else StartedBy(skew, g, events[0]) + Asked(sha, skew, GateNext(sha, skew, g, events[0]), events[1..])
  }

  lemma {:induction false} AskedWhen(sha: Hash, skew: nat, g: Gate, events: seq<GateEvent>, op: Op) returns (k: nat)
    requires op in Asked(sha, skew, g, events)
    ensures k < |events| && Started(skew, GateRun(sha, skew, g, events[..k]), events[k]) == Some(op)
    decreases |events|
  {
    if Started(skew, g, events[0]) == Some(op) {
      assert GateRun(sha, skew, g, events[..0]) == g;
      return 0;
    }
    var g1 := GateNext(sha, skew, g, events[0]);
    k := AskedWhen(sha, skew, g1, events[1..], op);
    assert events[..k + 1][0] == events[0] && events[..k + 1][1..] == events[1..][..k];
    assert GateRun(sha, skew, g, events[..k + 1]) == GateRun(sha, skew, g1, events[1..][..k]);
    k := k + 1;
  }

  // ------------------------------------------------------------------------------------------
  // The invariant
  // ------------------------------------------------------------------------------------------

  /** The operation may decide this transfer: a relay request that names its approval, or a local approver. */
  ghost predicate Entitled(row: Row, op: Op) {
    && (op.Callback? ==> row.provider.WeCom? && row.approvalId == Some(op.approvalId))
    && (op.Decide? ==> row.provider.LocalApproval?)
  }

  /** The operation asks for this transition in this name; a failed check of an approval expires the transfer. */
  ghost predicate Asks(op: Op, to: State, actor: Actor) {
    && DecidingActor(op) == Some(actor) && (to.Approved? || to.ApprovalRejected? || to.Expired?)
    && (Approves(op) <==> !to.ApprovalRejected?)
  }

  ghost predicate MoveOrigin(op: Op, m: Move) {
    && (m.approvalId.Some? ==> m.to.PendingApproval?)
    && (m.actor.Some? ==> Asks(op, m.to, m.actor.value))
  }

  ghost predicate ThreadOrigin(w: World, ops: set<Op>, op: Op, l: Local) {
    && (DecidingActor(op).Some? ==> op in ops)
    && (!l.pc.Start? && !l.pc.Gone? ==> Entitled(w.row, op))
    && (l.pc.VerifyForApproval? ==> Approves(op))
    && (l.pc.Reading? || l.pc.Swapping? ==> MoveOrigin(op, l.pc.m))
  }

  ghost predicate EntryOrigin(row: Row, ops: set<Op>, e: Entry) {
    e.Changed? ==>
      && (Decision(e) ==> e.actor.Some?)
      && (e.actor.Some? ==> exists op :: op in ops && Entitled(row, op) && Asks(op, e.to, e.actor.value))
  }

  ghost predicate LogOrigin(row: Row, ops: set<Op>, log: seq<Entry>) {
    forall i :: 0 <= i < |log| ==> EntryOrigin(row, ops, log[i])
  }

  /** A transfer has its approval identifier from its submission for approval on. */
  ghost predicate RowOrigin(row: Row) {
    row.approvalId.Some? ==>
      !row.state.PendingScan? && !row.state.Scanning? && !row.state.Quarantined? && !row.state.Classified?
  }

  ghost predicate Origins(s: System, ops: set<Op>) {
    && RowOrigin(s.w.row) && LogOrigin(s.w.row, ops, s.w.log)
    && forall t :: t in s.threads ==> ThreadOrigin(s.w, ops, s.threads[t].op, s.threads[t].local)
  }

  /** The provider stays, and so does an approval identifier. */
  ghost predicate SameRequest(row: Row, row': Row) {
    row'.provider == row.provider && (row.approvalId.Some? ==> row'.approvalId == row.approvalId)
  }

  lemma EntitledStays(row: Row, row': Row, op: Op)
    requires SameRequest(row, row') && Entitled(row, op)
    ensures Entitled(row', op)
  {
  }

  lemma {:induction false} LogOriginStays(row: Row, row': Row, ops: set<Op>, ops': set<Op>, log: seq<Entry>)
    requires SameRequest(row, row') && LogOrigin(row, ops, log) && ops <= ops'
    ensures LogOrigin(row', ops', log)
  {
    forall i | 0 <= i < |log| && log[i].Changed? && log[i].actor.Some?
      ensures exists op :: op in ops' && Entitled(row', op) && Asks(op, log[i].to, log[i].actor.value)
    {
      assert EntryOrigin(row, ops, log[i]);
      var op :| op in ops && Entitled(row, op) && Asks(op, log[i].to, log[i].actor.value);
      EntitledStays(row, row', op);
    }
    forall i | 0 <= i < |log|
      ensures EntryOrigin(row', ops', log[i])
    {
      assert EntryOrigin(row, ops, log[i]);
    }
  }

  lemma ThreadOriginStays(w: World, w': World, ops: set<Op>, ops': set<Op>, op: Op, l: Local)
    requires SameRequest(w.row, w'.row) && ThreadOrigin(w, ops, op, l) && ops <= ops'
    ensures ThreadOrigin(w', ops', op, l)
  {
  }

  // --- one step -----------------------------------------------------------------------------

  lemma ScanOrigin(sha: Hash, w: World, ops: set<Op>, op: Op, l: Local, c: Choice)
    requires ThreadOrigin(w, ops, op, l) && InScan(l.pc)
    ensures ThreadOrigin(w, ops, op, ScanStep(sha, w, l, c))
  {
  }

  lemma ReleaseOrigin(sha: Hash, w: World, ops: set<Op>, op: Op, l: Local)
    requires ThreadOrigin(w, ops, op, l) && InRelease(l.pc)
    ensures var (w', l') := ReleaseStep(sha, w, l);
            && ThreadOrigin(w, ops, op, l') && SameRequest(w.row, w'.row) && w'.log == w.log
            && w'.row.state == w.row.state && w'.row.approvalId == w.row.approvalId
  {
  }

  lemma DecisionOrigin(sha: Hash, w: World, ops: set<Op>, op: Op, l: Local, c: Choice)
    requires ThreadOrigin(w, ops, op, l) && LocalOk(w, op, l) && InDecision(l.pc)
    ensures var (w', l') := DeciderStep(sha, w, op, l, c);
            ThreadOrigin(w, ops, op, l') && w'.row == w.row && w'.log == w.log
  {
  }

  lemma RaisedOrigin(w: World, ops: set<Op>, op: Op, l: Local)
    requires ThreadOrigin(w, ops, op, l)
    ensures ThreadOrigin(w, ops, op, Raised(op, l))
  {
  }

  lemma StartOrigin(w: World, ops: set<Op>, op: Op, l: Local)
    requires ThreadOrigin(w, ops, op, l) && l.pc.Start?
    ensures ThreadOrigin(w, ops, op, StartOf(w, op, l))
  {
  }

  lemma {:induction false} SwapOrigin(w: World, ops: set<Op>, op: Op, l: Local)
    requires RowOrigin(w.row) && LogOrigin(w.row, ops, w.log)
    requires ThreadOrigin(w, ops, op, l) && LocalOk(w, op, l) && l.pc.Swapping? && l.pc.from == w.row.state
    ensures var w' := Swap(w, l.pc.from, l.pc.m, l.pass);
            SameRequest(w.row, w'.row) && RowOrigin(w'.row) && LogOrigin(w'.row, ops, w'.log)
  {
    var m := l.pc.m;
    var w' := Swap(w, l.pc.from, m, l.pass);
    var e := Changed(l.pc.from, m.to, m.actor, l.pass);
    LogOriginStays(w.row, w'.row, ops, ops, w.log);
    if m.actor.Some? {
      EntitledStays(w.row, w'.row, op);
      assert op in ops && Entitled(w'.row, op) && Asks(op, e.to, e.actor.value);
    }
    assert EntryOrigin(w'.row, ops, e);
    forall i | 0 <= i < |w'.log|
      ensures EntryOrigin(w'.row, ops, w'.log[i])
    {
      if i < |w.log| {
        assert w'.log[i] == w.log[i];
      }
    }
  }

  lemma {:induction false} CommonOrigin(w: World, ops: set<Op>, op: Op, l: Local)
    requires RowOrigin(w.row) && LogOrigin(w.row, ops, w.log) && ThreadOrigin(w, ops, op, l) && LocalOk(w, op, l)
    requires !InScan(l.pc) && !InRelease(l.pc) && !InDecision(l.pc)
    ensures var (w', l') := CommonStep(w, op, l);
            && SameRequest(w.row, w'.row) && RowOrigin(w'.row) && LogOrigin(w'.row, ops, w'.log)
            && ThreadOrigin(w', ops, op, l')
  {
    if l.pc.Swapping? && l.pc.from == w.row.state {
      SwapOrigin(w, ops, op, l);
      ResumeOrigin(w, ops, op, l, l.pc.m.next);
      ThreadOriginStays(w, Swap(w, l.pc.from, l.pc.m, l.pass), ops, ops, op, l.(pc := Resume(l.pc.m.next)));
    } else if l.pc.Start? {
      StartOrigin(w, ops, op, l);
    } else if l.pc.Ending? {
      EndingIs(w, op, l);
    } else {
      QuietOrigin(w, ops, op, l);
    }
  }

  lemma ResumeOrigin(w: World, ops: set<Op>, op: Op, l: Local, a: After)
    requires ThreadOrigin(w, ops, op, l) && !l.pc.Start? && !l.pc.Gone?
    ensures ThreadOrigin(w, ops, op, l.(pc := Resume(a)))
  {
  }

  lemma QuietOrigin(w: World, ops: set<Op>, op: Op, l: Local)
    requires RowOrigin(w.row) && ThreadOrigin(w, ops, op, l)
    requires !InScan(l.pc) && !InRelease(l.pc) && !InDecision(l.pc) && !l.pc.Start? && !l.pc.Ending?
    requires !(l.pc.Swapping? && l.pc.from == w.row.state)
    ensures var (w', l') := CommonStep(w, op, l);
            && w'.log == w.log && w'.row == w.row.(place := w'.row.place) && ThreadOrigin(w', ops, op, l')
  {
  }

  lemma {:induction false} ActOrigin(sha: Hash, w: World, ops: set<Op>, op: Op, l: Local, c: Choice)
    requires RowOrigin(w.row) && LogOrigin(w.row, ops, w.log) && ThreadOrigin(w, ops, op, l) && LocalOk(w, op, l)
    ensures var (w', l') := Act(sha, w, op, l, c);
            && SameRequest(w.row, w'.row) && RowOrigin(w'.row) && LogOrigin(w'.row, ops, w'.log)
            && ThreadOrigin(w', ops, op, l')
  {
    if Raises(l, c) {
      RaisedOrigin(w, ops, op, l);
    } else if InScan(l.pc) {
      ScanOrigin(sha, w, ops, op, l, c);
    } else if InRelease(l.pc) {
      ReleaseOrigin(sha, w, ops, op, l);
      LogOriginStays(w.row, ReleaseStep(sha, w, l).0.row, ops, ops, w.log);
    } else if InDecision(l.pc) {
      DecisionOrigin(sha, w, ops, op, l, c);
    } else {
      CommonOrigin(w, ops, op, l);
    }
  }

  lemma {:induction false} StepOrigins(sha: Hash, s: System, ops: set<Op>, t: ThreadId, c: Choice)
    requires Inv(sha, s) && Origins(s, ops) && t in s.threads
    ensures Origins(Next(sha, s, Step(t, c)), ops)
  {
    var s' := Next(sha, s, Step(t, c));
    ActOrigin(sha, s.w, ops, s.threads[t].op, s.threads[t].local, c);
    forall u | u in s'.threads
      ensures ThreadOrigin(s'.w, ops, s'.threads[u].op, s'.threads[u].local)
    {
      if u != t {
        ThreadOriginStays(s.w, s'.w, ops, ops, s.threads[u].op, s.threads[u].local);
      }
    }
  }

  /** An event other than a step of a thread; `started` are the operations it may start. */
  lemma {:induction false} EventOrigins(sha: Hash, s: System, ops: set<Op>, e: Event, started: set<Op>)
    requires Origins(s, ops) && !(e.Step? && e.t in s.threads)
    requires e.Spawn? && e.t !in s.threads ==> e.op in started
    ensures Origins(Next(sha, s, e), ops + started)
  {
    var s' := Next(sha, s, e);
    LogOriginStays(s.w.row, s'.w.row, ops, ops + started, s.w.log);
    forall u | u in s'.threads
      ensures ThreadOrigin(s'.w, ops + started, s'.threads[u].op, s'.threads[u].local)
    {
      if u in s.threads {
        assert s'.threads[u] == s.threads[u];
        ThreadOriginStays(s.w, s'.w, ops, ops + started, s.threads[u].op, s.threads[u].local);
      }
    }
  }

  lemma {:induction false} NextOrigins(sha: Hash, skew: nat, g: Gate, ops: set<Op>, e: GateEvent)
    requires Inv(sha, g.s) && Origins(g.s, ops)
    ensures var g' := GateNext(sha, skew, g, e); Inv(sha, g'.s) && Origins(g'.s, ops + StartedBy(skew, g, e))
  {
    var started := StartedBy(skew, g, e);
    match e {
      case Deliver(t, r, now) =>
        if Admitted(skew, g.nonces, r, now) {
          NextKeepsInv(sha, g.s, Spawn(t, OpOf(r)));
          EventOrigins(sha, g.s, ops, Spawn(t, OpOf(r)), started);
        } else {
          assert ops + started == ops;
        }
      case PurgeNonces(_) => assert ops + started == ops;
      case Inner(e) =>
        if !OnlyInner(e) {
          assert ops + started == ops;
        } else {
          NextKeepsInv(sha, g.s, e);
          if e.Step? && e.t in g.s.threads {
            StepOrigins(sha, g.s, ops, e.t, e.c);
            assert ops + started == ops;
          } else {
            EventOrigins(sha, g.s, ops, e, started);
          }
        }
    }
  }

  lemma {:induction false} RunOrigins(sha: Hash, skew: nat, g: Gate, ops: set<Op>, events: seq<GateEvent>)
    requires Inv(sha, g.s) && Origins(g.s, ops)
    ensures Origins(GateRun(sha, skew, g, events).s, ops + Asked(sha, skew, g, events))
    decreases |events|
  {
    if events == [] {
      assert ops + Asked(sha, skew, g, events) == ops;
    } else {
      var g1, started := GateNext(sha, skew, g, events[0]), StartedBy(skew, g, events[0]);
      NextOrigins(sha, skew, g, ops, events[0]);
      RunOrigins(sha, skew, g1, ops + started, events[1..]);
      assert ops + started + Asked(sha, skew, g1, events[1..]) == ops + Asked(sha, skew, g, events);
    }
  }

  // ------------------------------------------------------------------------------------------
  // Every decision has its request
  // ------------------------------------------------------------------------------------------

  function Submission(sha: Hash, bytes: Bytes, conflict: bool, provider: Provider, policy: Policy): Gate {
    Gate(map[], Submitted(sha, bytes, conflict, provider, policy))
  }

  /**
   The k-th event delivers an authentic, timely request whose nonce is not bound to another payload; it names
   `approvalId`, it is the relay's `event` about `user`, and it says whether to approve.
   */
  ghost predicate Requested(sha: Hash, skew: nat, g: Gate, events: seq<GateEvent>, k: nat, approvalId: string,
                            user: Name, event: EventId, approve: bool)
  {
    && k < |events| && events[k].Deliver?
    && var r, now, nonces := events[k].r, events[k].now, GateRun(sha, skew, g, events[..k]).nonces;
       && r.authentic && r.timestamp - skew <= now <= r.timestamp + skew
       && (r.nonce in nonces ==> nonces[r.nonce].payloadHash == r.payloadHash)
       && r.approvalId == approvalId && r.user == user && r.event == event && r.decision == approve
  }

  ghost predicate Decides(events: seq<GateEvent>, k: nat, approve: bool, name: Name) {
    && k < |events| && events[k].Inner? && events[k].e.Spawn? && events[k].e.op == Decide(approve, name)
  }

  ghost predicate WasRequested(sha: Hash, skew: nat, g: Gate, events: seq<GateEvent>, approvalId: string,
                               user: Name, event: EventId, approve: bool)
  {
    exists k :: Requested(sha, skew, g, events, k, approvalId, user, event, approve)
  }

  ghost predicate WasDecided(events: seq<GateEvent>, approve: bool, name: Name) {
    exists k :: Decides(events, k, approve, name)
  }

  lemma {:induction false} AskedIsWitnessed(sha: Hash, skew: nat, g: Gate, events: seq<GateEvent>, op: Op)
    requires op in Asked(sha, skew, g, events)
    ensures op.Callback? ==>
              WasRequested(sha, skew, g, events, op.approvalId, op.relayUser, op.event, op.decision)
    ensures op.Decide? ==> WasDecided(events, op.approve, op.name)
  {
    var k := AskedWhen(sha, skew, g, events, op);
    if op.Callback? {
      assert Requested(sha, skew, g, events, k, op.approvalId, op.relayUser, op.event, op.decision);
    } else if op.Decide? {
      assert Decides(events, k, op.approve, op.name);
    }
  }

  /**
   Over every run of the endpoint from a submission: each decision in the log, and each expiry in the name of an
   approver whose check failed, was asked for. In the name of a relay user it stands in the log of a transfer with
   enterprise approval only, and a request that was delivered and admitted named this transfer's own approval,
   that user, that event and that decision. In the name of a local approver it stands in the log of a transfer
   with local approval only, and that approver asked for it.
   */
  lemma {:induction false} DecisionHasItsRequest(sha: Hash, skew: nat, bytes: Bytes, conflict: bool,
                                                 provider: Provider, policy: Policy, events: seq<GateEvent>, i: nat)
    requires var w := GateRun(sha, skew, Submission(sha, bytes, conflict, provider, policy), events).s.w;
             i < |w.log| && w.log[i].Changed? && (Decision(w.log[i]) || w.log[i].actor.Some?)
    ensures var g := Submission(sha, bytes, conflict, provider, policy);
            var w := GateRun(sha, skew, g, events).s.w;
            var approve := !w.log[i].to.ApprovalRejected?;
            && w.log[i].actor.Some?
            && match w.log[i].actor.value
               case Relay(user, event) =>
                 && w.row.provider.WeCom? && w.row.approvalId.Some?
                 && WasRequested(sha, skew, g, events, w.row.approvalId.value, user, event, approve)
               case Approver(name) =>
                 w.row.provider.LocalApproval? && WasDecided(events, approve, name)
  {
    var g := Submission(sha, bytes, conflict, provider, policy);
    var w, asked := GateRun(sha, skew, g, events).s.w, Asked(sha, skew, g, events);
    SubmittedOk(sha, bytes, conflict, provider, policy);
    RunOrigins(sha, skew, g, {}, events);
    assert {} + asked == asked;
    assert EntryOrigin(w.row, asked, w.log[i]);
    var op :| op in asked && Entitled(w.row, op) && Asks(op, w.log[i].to, w.log[i].actor.value);
    AskedIsWitnessed(sha, skew, g, events, op);
  }
}
