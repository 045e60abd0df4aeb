/**
 What becomes of an outbound decision. The decision is unique, but its outcome and its actor can still
 be undone by an expiry; this module says by which step, of which thread, and which guard let it through.
 */
module OutboundDecision {
  import opened Basics
  import opened Outbound

  ghost predicate Made(w: World) {
    exists i :: 0 <= i < |w.log| && Decision(w.log[i])
  }

  /** The transition a thread is carrying out. */
  function Carried(pc: Pc): Option<Move> {
    match pc
    case Reading(m) => Some(m)
    case Swapping(_, m) => Some(m)
    case _ => None
  }

  predicate Doomed(l: Local) {
    Carried(l.pc).Some? && Carried(l.pc).value.to.Expired?
  }

  /** An approver past the guard of the decision: about to hash the payload, or expiring in his own name. */
  predicate Late(l: Local) {
    l.pc.VerifyForApproval? || (Doomed(l) && Carried(l.pc).value.actor.Some?)
  }

  predicate Expiring(l: Local) {
    Late(l) || Doomed(l)
  }

  /** The event is the compare-and-swap of an expiry that still finds the state it has read. */
  predicate Expires(s: System, e: Event) {
    && e.Step? && e.t in s.threads
    && var pc := s.threads[e.t].local.pc;
       pc.Swapping? && pc.from == s.w.row.state && pc.m.to.Expired? && e.c.ok
  }

  predicate Signs(s: System, e: Event)
    requires Expires(s, e)
  {
    s.threads[e.t].local.pc.m.actor.Some?
  }

  predicate Standing(state: State) {
    state.Approved? || state.ReleasedToGreen?
  }

  // ------------------------------------------------------------------------------------------
  // The step that undoes
  // ------------------------------------------------------------------------------------------

  /**
   After a decision, a step takes an approved or released transfer to `Expired` exactly when it is the
   compare-and-swap of an expiry, and changes the actor column exactly when that expiry also carries an
   actor and a different one.
   */
  lemma WhatUndoes(sha: Hash, s: System, e: Event)
    requires Inv(sha, s) && Made(s.w)
    ensures var w, w' := s.w, Next(sha, s, e).w;
            && (w'.row.state.Expired? && !w.row.state.Expired? <==> Expires(s, e))
            && (Standing(w.row.state) && !Expires(s, e) ==> Standing(w'.row.state))
            && (w.row.state.ApprovalRejected? && !Expires(s, e) ==> w'.row.state.ApprovalRejected?)
            && (w'.row.actor != w.row.actor <==>
                  Expires(s, e) && Signs(s, e) && s.threads[e.t].local.pc.m.actor != w.row.actor)
  {
    if e.Step? && e.t in s.threads {
      StepUndoes(sha, s.w, s.threads[e.t].op, s.threads[e.t].local, e.c);
    }
  }

  lemma StepUndoes(sha: Hash, w: World, op: Op, l: Local, c: Choice)
    requires WorldOk(w) && LocalOk(w, op, l) && Made(w)
    ensures var w' := Act(sha, w, op, l, c).0;
            if l.pc.Swapping? && l.pc.from == w.row.state && c.ok then
              && (l.pc.m.to.Expired? || (w.row.state.Approved? && l.pc.m.to.ReleasedToGreen? && l.pc.m.actor.None?))
              && w'.row.state == l.pc.m.to
              && w'.row.actor == if l.pc.m.actor.Some? then l.pc.m.actor else w.row.actor
            else w'.row.state == w.row.state && w'.row.actor == w.row.actor
  {
    if l.pc.Swapping? && l.pc.from == w.row.state && c.ok {
      SwapUndoes(w, op, l);
    } else if !Raises(l, c) {
      OthersDecideNothing(sha, w, op, l, c);
    }
  }

  lemma SwapUndoes(w: World, op: Op, l: Local)
    requires WorldOk(w) && LocalOk(w, op, l) && Made(w) && l.pc.Swapping? && l.pc.from == w.row.state
    ensures l.pc.m.to.Expired? || (w.row.state.Approved? && l.pc.m.to.ReleasedToGreen? && l.pc.m.actor.None?)
  {
    MadeStates(w);
  }

  lemma OthersDecideNothing(sha: Hash, w: World, op: Op, l: Local, c: Choice)
    requires !(l.pc.Swapping? && l.pc.from == w.row.state)
    ensures var w' := Proceed(sha, w, op, l, c).0; w'.row.state == w.row.state && w'.row.actor == w.row.actor
  {
    if InRelease(l.pc) {
      ReleaseDecidesNothing(sha, w, l);
    } else if !InScan(l.pc) && !InDecision(l.pc) {
      CommonDecides(w, op, l);
    }
  }

  lemma ReleaseDecidesNothing(sha: Hash, w: World, l: Local)
    ensures var w' := ReleaseStep(sha, w, l).0; w'.row.state == w.row.state && w'.row.actor == w.row.actor
  {
  }

  lemma CommonDecides(w: World, op: Op, l: Local)
    ensures var w' := CommonStep(w, op, l).0;
            if l.pc.Swapping? && l.pc.from == w.row.state then w' == Swap(w, l.pc.from, l.pc.m, l.pass)
            else w'.row.state == w.row.state && w'.row.actor == w.row.actor
  {
  }

  lemma MadeStates(w: World)
    requires WorldOk(w) && Made(w)
    ensures !BeforeDecision(w.row.state)
  {
  }

  // ------------------------------------------------------------------------------------------
  // The guard that let it through
  // ------------------------------------------------------------------------------------------

  /** Thread t starts an explicit expiry, or finds the policy withdrawn from an approved transfer. */
  predicate TakesGuard(s: System, e: Event, t: ThreadId) {
    && e.Step? && e.t == t && t in s.threads
    && (|| (s.threads[t].op.Expire? && s.threads[t].local.pc.Start?)
        || (&& s.threads[t].local.pc.ReleaseRead? && s.w.runtime && s.w.row.state.Approved?
            && !Permits(s.w.policy, s.w.row)))
  }

  predicate GuardTaken(sha: Hash, s: System, events: seq<Event>, t: ThreadId)
    decreases |events|
  {
    events != [] && (TakesGuard(s, events[0], t) || GuardTaken(sha, Next(sha, s, events[0]), events[1..], t))
  }

  lemma ActProvenance(sha: Hash, w: World, op: Op, l: Local, c: Choice)
    requires WorldOk(w) && LocalOk(w, op, l) && Made(w)
    ensures var l' := Act(sha, w, op, l, c).1;
            && (Late(l') ==> Late(l))
            && (Doomed(l') ==>
                  || Expiring(l) || (op.Expire? && l.pc.Start?)
                  || (l.pc.ReleaseRead? && w.runtime && w.row.state.Approved? && !Permits(w.policy, w.row)))
  {
    if Raises(l, c) {
      RaisedProvenance(op, l);
    } else if InScan(l.pc) {
      ScanProvenance(sha, w, l, c);
    } else if InRelease(l.pc) {
      ReleaseProvenance(sha, w, l);
    } else if InDecision(l.pc) {
      DeciderProvenance(sha, w, op, l, c);
    } else {
      CommonProvenance(w, op, l);
    }
  }

  lemma RaisedProvenance(op: Op, l: Local)
    ensures !Expiring(Raised(op, l)) || l.pc.DropDir? || l.pc.DropSource? || l.pc.Gone?
  {
  }

  lemma ReleaseProvenance(sha: Hash, w: World, l: Local)
    requires InRelease(l.pc)
    ensures var l' := ReleaseStep(sha, w, l).1;
            && !Late(l')
            && (Doomed(l') ==> l.pc.ReleaseRead? && w.runtime && w.row.state.Approved? && !Permits(w.policy, w.row))
  {
  }

  lemma ScanProvenance(sha: Hash, w: World, l: Local, c: Choice)
    requires InScan(l.pc)
    ensures !Expiring(ScanStep(sha, w, l, c))
  {
  }

  lemma DeciderProvenance(sha: Hash, w: World, op: Op, l: Local, c: Choice)
    requires WorldOk(w) && LocalOk(w, op, l) && Made(w) && InDecision(l.pc)
    ensures var l' := DeciderStep(sha, w, op, l, c).1; Expiring(l') ==> Late(l)
  {
  }

  lemma CommonProvenance(w: World, op: Op, l: Local)
    requires !InScan(l.pc) && !InRelease(l.pc) && !InDecision(l.pc)
    ensures var l' := CommonStep(w, op, l).1;
            && (Late(l') ==> Late(l))
            && (Doomed(l') ==> Doomed(l) || (op.Expire? && l.pc.Start?))
  {
  }

  lemma NextProvenance(sha: Hash, s: System, e: Event, t: ThreadId)
    requires Inv(sha, s) && Made(s.w) && t in Next(sha, s, e).threads
    ensures var l' := Next(sha, s, e).threads[t].local;
            && (Late(l') ==> t in s.threads && Late(s.threads[t].local))
            && (Doomed(l') ==> (t in s.threads && Expiring(s.threads[t].local)) || TakesGuard(s, e, t))
  {
    if e.Step? && e.t in s.threads {
      ActProvenance(sha, s.w, s.threads[e.t].op, s.threads[e.t].local, e.c);
    }
  }

  lemma {:induction false} MadeStays(sha: Hash, s: System, events: seq<Event>)
    requires Made(s.w)
    ensures Made(Run(sha, s, events).w)
  {
    LogGrows(sha, s, events);
    var i :| 0 <= i < |s.w.log| && Decision(s.w.log[i]);
    assert Run(sha, s, events).w.log[i] == s.w.log[i];
  }

  /**
   Where an expiring thread comes from. After the decision nobody gets past the guard of the decision any
   more: who signs an expiry had passed it before. Any other expiry had been begun before the decision
   too, or took the guard of an explicit expiry or of a withdrawn policy since.
   */
  lemma {:induction false} Provenance(sha: Hash, s: System, events: seq<Event>, t: ThreadId)
    requires Inv(sha, s) && Made(s.w) && t in Run(sha, s, events).threads
    ensures var l' := Run(sha, s, events).threads[t].local;
            && (Late(l') ==> t in s.threads && Late(s.threads[t].local))
            && (Doomed(l') ==> (t in s.threads && Expiring(s.threads[t].local)) || GuardTaken(sha, s, events, t))
    decreases |events|
  {
    if events != [] {
      var e := events[0];
      NextKeepsInv(sha, s, e);
      assert Run(sha, s, [e]) == Run(sha, Next(sha, s, e), [e][1..]);
      MadeStays(sha, s, [e]);
      Provenance(sha, Next(sha, s, e), events[1..], t);
      if t in Next(sha, s, e).threads {
        NextProvenance(sha, s, e, t);
      }
    }
  }

  /** Which guard put the undoing thread there. */
  lemma {:induction false} UndoneBy(sha: Hash, s: System, events: seq<Event>, e: Event)
    requires Inv(sha, s) && Made(s.w) && Expires(Run(sha, s, events), e)
    ensures Signs(Run(sha, s, events), e) ==> e.t in s.threads && Late(s.threads[e.t].local)
    ensures (e.t in s.threads && Expiring(s.threads[e.t].local)) || GuardTaken(sha, s, events, e.t)
  {
    Provenance(sha, s, events, e.t);
  }

  // ------------------------------------------------------------------------------------------
  // When the first decision is final
  // ------------------------------------------------------------------------------------------

  ghost predicate NobodyExpiring(s: System) {
    forall t :: t in s.threads ==> !Expiring(s.threads[t].local)
  }

  ghost predicate NoGuards(sha: Hash, s: System, events: seq<Event>)
    decreases |events|
  {
    forall t :: !GuardTaken(sha, s, events, t)
  }

  /**
   Confluence. If no other thread was past its guard when the transfer was decided, then without an
   explicit expiry and without a withdrawn policy the decision stands, with its actor, whatever
   callbacks, approvers, retries, timeouts, crashes and restarts follow.
   */
  lemma {:induction false} DecisionStands(sha: Hash, s: System, events: seq<Event>)
    requires Inv(sha, s) && Made(s.w) && NobodyExpiring(s) && NoGuards(sha, s, events)
    ensures var w' := Run(sha, s, events).w;
            && w'.row.actor == s.w.row.actor
            && (Standing(s.w.row.state) ==> Standing(w'.row.state))
            && (s.w.row.state.ApprovalRejected? ==> w'.row.state.ApprovalRejected?)
    decreases |events|
  {
    if events != [] {
      var e := events[0];
      var s1 := Next(sha, s, e);
      NextKeepsInv(sha, s, e);
      assert Run(sha, s, [e]) == Run(sha, s1, [e][1..]);
      MadeStays(sha, s, [e]);
      WhatUndoes(sha, s, e);
      forall t | t in s1.threads ensures !Expiring(s1.threads[t].local) {
        NextProvenance(sha, s, e, t);
        assert !GuardTaken(sha, s, events, t);
      }
      forall t ensures !GuardTaken(sha, s1, events[1..], t) {
        assert !GuardTaken(sha, s, events, t);
      }
      DecisionStands(sha, s1, events[1..]);
    }
  }

  // ------------------------------------------------------------------------------------------
  // A released transfer undone
  // ------------------------------------------------------------------------------------------

  const GOOD: Choice := Choice(true, false, [], Some("general"), "approval")

  const OPEN_POLICY: Policy := Policy(true, LocalApproval, {"general"})

  const BEGIN: Local := Local(Start, NO_PASS, Isolation)

  const APPROVER_A: Op := Decide(true, "a")

  const APPROVER_B: Op := Decide(true, "b")

  function Script(n: nat): (script: seq<Choice>)
    ensures |script| == n && forall i :: 0 <= i < n ==> script[i] == GOOD
  {
    seq(n, i => GOOD)
  }

  /** One good step at a time. */
  lemma Walk(sha: Hash, w: World, op: Op, l: Local, n: nat, i: nat, w': World, l': Local)
    requires i < n && !l.pc.Gone? && Act(sha, w, op, l, GOOD) == (w', l')
    ensures Alone(sha, w, op, l, Script(n), i) == Alone(sha, w', op, l', Script(n), i + 1)
  {
  }

  function Clean(sha: Hash, bytes: Bytes): World {
    Submitted(sha, bytes, false, LocalApproval, OPEN_POLICY).w
  }

  const CHECKED: Pass := NO_PASS.(first := true, statuses := Some([]), second := true)

  const TO_SCANNING: Move := To(Scanning, ToFirstCheck, ToEnd(false))

  const TO_CLASSIFIED: Move := To(Classified, ToSubmit, ToFailing).(category := Some("general"))

  const TO_PENDING: Move := To(PendingApproval, ToEnd(true), ToFailing).(approvalId := Some("approval"))

  const TO_APPROVED: Move := To(Approved, ToRelease, ToEnd(false)).(actor := Some(Approver("a")))

  const TO_EXPIRED: Move := To(Expired, ToEnd(false), ToEnd(false)).(actor := Some(Approver("b")))

  /** The transfer after a clean scan pass. */
  function Pending(sha: Hash, bytes: Bytes): World {
    var scanning := Swap(Clean(sha, bytes), PendingScan, TO_SCANNING, NO_PASS);
    var classified := Swap(scanning, Scanning, TO_CLASSIFIED, CHECKED.(allowed := true));
    Swap(classified, Classified, TO_PENDING, CHECKED.(allowed := true))
  }

  function ByA(sha: Hash, bytes: Bytes): World {
    Swap(Pending(sha, bytes), PendingApproval, TO_APPROVED, NO_PASS.(verified := true))
  }

  lemma {:induction false} ScanClaims(sha: Hash, w: World, script: seq<Choice>)
    requires w.row.state.PendingScan? && Calm(script) && |script| >= 3
    ensures Alone(sha, w, Scan, BEGIN, script, 0) ==
            Alone(sha, Swap(w, PendingScan, TO_SCANNING, NO_PASS), Scan, BEGIN.(pc := FirstCheck), script, 3)
  {
    var l := BEGIN.(pc := Reading(TO_SCANNING));
    Forward(sha, w, Scan, BEGIN, script, 0, w, l);
    ClaimSwaps(sha, w, l, script);
  }

  lemma {:induction false} ClaimSwaps(sha: Hash, w: World, l: Local, script: seq<Choice>)
    requires w.row.state.PendingScan? && Calm(script) && |script| >= 3 && l.pc == Reading(TO_SCANNING)
    ensures Alone(sha, w, Scan, l, script, 1) ==
            Alone(sha, Swap(w, PendingScan, TO_SCANNING, l.pass), Scan, l.(pc := FirstCheck), script, 3)
  {
    TransitionAlone(sha, w, Scan, l, TO_SCANNING, script, 1);
  }

  lemma ScanChecks(sha: Hash, w: World)
    requires w.row.state.Scanning? && w.row.place.Isolation? && Intact(sha, w, Isolation) && !w.row.typeConflict
    requires w.runtime && w.policy == OPEN_POLICY
    ensures Alone(sha, w, Scan, BEGIN.(pc := FirstCheck), Script(12), 3) ==
            Alone(sha, w, Scan, Local(Reading(TO_CLASSIFIED), CHECKED.(allowed := true), Isolation), Script(12), 7)
  {
    var first := NO_PASS.(first := true);
    var clean := first.(statuses := Some([]));
    Walk(sha, w, Scan, BEGIN.(pc := FirstCheck), 12, 3, w, Local(RunScanners, first, Isolation));
    Walk(sha, w, Scan, Local(RunScanners, first, Isolation), 12, 4, w, Local(SecondCheck, clean, Isolation));
    Walk(sha, w, Scan, Local(SecondCheck, clean, Isolation), 12, 5, w, Local(Classify, CHECKED, Isolation));
    Walk(sha, w, Scan, Local(Classify, CHECKED, Isolation), 12, 6,
         w, Local(Reading(TO_CLASSIFIED), CHECKED.(allowed := true), Isolation));
  }

  lemma ScanClassifies(sha: Hash, w: World)
    requires w.row.state.Scanning?
    ensures var l := Local(Reading(TO_CLASSIFIED), CHECKED.(allowed := true), Isolation);
            Alone(sha, w, Scan, l, Script(12), 7) ==
            Alone(sha, Swap(w, Scanning, TO_CLASSIFIED, l.pass), Scan, l.(pc := Submit), Script(12), 9)
  {
    var l := Local(Reading(TO_CLASSIFIED), CHECKED.(allowed := true), Isolation);
    Walk(sha, w, Scan, l, 12, 7, w, l.(pc := Swapping(Scanning, TO_CLASSIFIED)));
    Walk(sha, w, Scan, l.(pc := Swapping(Scanning, TO_CLASSIFIED)), 12, 8,
         Swap(w, Scanning, TO_CLASSIFIED, l.pass), l.(pc := Submit));
  }

  lemma ScanSubmits(sha: Hash, w: World)
    requires w.row.state.Classified?
    ensures var l := Local(Submit, CHECKED.(allowed := true), Isolation);
            Alone(sha, w, Scan, l, Script(12), 9) == (Swap(w, Classified, TO_PENDING, l.pass), l.(pc := Ending(true)))
  {
    var l := Local(Submit, CHECKED.(allowed := true), Isolation);
    Walk(sha, w, Scan, l, 12, 9, w, l.(pc := Reading(TO_PENDING)));
    Walk(sha, w, Scan, l.(pc := Reading(TO_PENDING)), 12, 10, w, l.(pc := Swapping(Classified, TO_PENDING)));
    Walk(sha, w, Scan, l.(pc := Swapping(Classified, TO_PENDING)), 12, 11,
         Swap(w, Classified, TO_PENDING, l.pass), l.(pc := Ending(true)));
  }

  lemma ScanPasses(sha: Hash, bytes: Bytes)
    ensures Alone(sha, Clean(sha, bytes), Scan, BEGIN, Script(12), 0) ==
            (Pending(sha, bytes), Local(Ending(true), CHECKED.(allowed := true), Isolation))
  {
    var scanning := Swap(Clean(sha, bytes), PendingScan, TO_SCANNING, NO_PASS);
    ScanClaims(sha, Clean(sha, bytes), Script(12));
    ScanChecks(sha, scanning);
    ScanClassifies(sha, scanning);
    ScanSubmits(sha, Swap(scanning, Scanning, TO_CLASSIFIED, CHECKED.(allowed := true)));
  }

  lemma ApproverEnters(sha: Hash, bytes: Bytes)
    ensures Alone(sha, Pending(sha, bytes), APPROVER_B, BEGIN, Script(2), 0) ==
            (Pending(sha, bytes), BEGIN.(pc := VerifyForApproval))
  {
    var w := Pending(sha, bytes);
    Walk(sha, w, APPROVER_B, BEGIN, 2, 0, w, BEGIN.(pc := Deciding));
    Walk(sha, w, APPROVER_B, BEGIN.(pc := Deciding), 2, 1, w, BEGIN.(pc := VerifyForApproval));
  }

  lemma ApproverApproves(sha: Hash, bytes: Bytes)
    ensures Alone(sha, Pending(sha, bytes), APPROVER_A, BEGIN, Script(5), 0) ==
            (ByA(sha, bytes), Local(ReleaseRead, NO_PASS.(verified := true), Isolation))
  {
    var w, pass := Pending(sha, bytes), NO_PASS.(verified := true);
    Walk(sha, w, APPROVER_A, BEGIN, 5, 0, w, BEGIN.(pc := Deciding));
    Walk(sha, w, APPROVER_A, BEGIN.(pc := Deciding), 5, 1, w, BEGIN.(pc := VerifyForApproval));
    Walk(sha, w, APPROVER_A, BEGIN.(pc := VerifyForApproval), 5, 2, w, Local(Reading(TO_APPROVED), pass, Isolation));
    Walk(sha, w, APPROVER_A, Local(Reading(TO_APPROVED), pass, Isolation), 5, 3,
         w, Local(Swapping(PendingApproval, TO_APPROVED), pass, Isolation));
    Walk(sha, w, APPROVER_A, Local(Swapping(PendingApproval, TO_APPROVED), pass, Isolation), 5, 4,
         ByA(sha, bytes), Local(ReleaseRead, pass, Isolation));
  }

  /** The approver who was overtaken finds the isolation path empty. */
  lemma OvertakenExpires(sha: Hash, w: World)
    requires w.row.state.ReleasedToGreen? && w.iso.None?
    ensures Alone(sha, w, APPROVER_B, BEGIN.(pc := VerifyForApproval), Script(3), 0) ==
            (Swap(w, ReleasedToGreen, TO_EXPIRED, NO_PASS), BEGIN.(pc := Ending(false)))
  {
    Walk(sha, w, APPROVER_B, BEGIN.(pc := VerifyForApproval), 3, 0, w, BEGIN.(pc := Reading(TO_EXPIRED)));
    Walk(sha, w, APPROVER_B, BEGIN.(pc := Reading(TO_EXPIRED)), 3, 1,
         w, BEGIN.(pc := Swapping(ReleasedToGreen, TO_EXPIRED)));
    Walk(sha, w, APPROVER_B, BEGIN.(pc := Swapping(ReleasedToGreen, TO_EXPIRED)), 3, 2,
         Swap(w, ReleasedToGreen, TO_EXPIRED, NO_PASS), BEGIN.(pc := Ending(false)));
  }

  function Spawned(t: ThreadId, op: Op, n: nat): seq<Event> {
    [Spawn(t, op)] + Steps(t, Script(n), 0)
  }

  lemma {:induction false} Extend(sha: Hash, s0: System, before: seq<Event>, s1: System, t: ThreadId, op: Op, n: nat,
                                  w: World, l: Local)
    requires Run(sha, s0, before) == s1 && t !in s1.threads && Alone(sha, s1.w, op, BEGIN, Script(n), 0) == (w, l)
    ensures Run(sha, s0, before + Spawned(t, op, n)) == s1.(w := w, threads := s1.threads[t := Thread(op, l)])
  {
    RunAppend(sha, s0, before, Spawned(t, op, n));
    SpawnedAlone(sha, s1, t, op, Script(n));
  }

  /** A clean scan; approver b passes the guard of the decision; approver a approves. */
  function ToApproved(): seq<Event> {
    [] + Spawned(0, Scan, 12) + Spawned(1, APPROVER_B, 2) + Spawned(2, APPROVER_A, 5)
  }

  function AtApproval(sha: Hash, bytes: Bytes): System {
    System(ByA(sha, bytes),
           map[0 := Thread(Scan, Local(Ending(true), CHECKED.(allowed := true), Isolation)),
               1 := Thread(APPROVER_B, BEGIN.(pc := VerifyForApproval)),
               2 := Thread(APPROVER_A, Local(ReleaseRead, NO_PASS.(verified := true), Isolation))],
           bytes, false)
  }

  lemma ReachesApproval(sha: Hash, bytes: Bytes)
    ensures Run(sha, Submitted(sha, bytes, false, LocalApproval, OPEN_POLICY), ToApproved()) == AtApproval(sha, bytes)
    ensures WorldOk(ByA(sha, bytes))
  {
    var s0 := Submitted(sha, bytes, false, LocalApproval, OPEN_POLICY);
    var scanned := Local(Ending(true), CHECKED.(allowed := true), Isolation);
    var s1 := s0.(w := Pending(sha, bytes), threads := s0.threads[0 := Thread(Scan, scanned)]);
    var s2 := s1.(threads := s1.threads[1 := Thread(APPROVER_B, BEGIN.(pc := VerifyForApproval))]);
    ScanPasses(sha, bytes);
    Extend(sha, s0, [], s0, 0, Scan, 12, Pending(sha, bytes), scanned);
    ApproverEnters(sha, bytes);
    Extend(sha, s0, [] + Spawned(0, Scan, 12), s1, 1, APPROVER_B, 2,
           Pending(sha, bytes), BEGIN.(pc := VerifyForApproval));
    ApproverApproves(sha, bytes);
    Extend(sha, s0, [] + Spawned(0, Scan, 12) + Spawned(1, APPROVER_B, 2), s2, 2, APPROVER_A, 5,
           ByA(sha, bytes), Local(ReleaseRead, NO_PASS.(verified := true), Isolation));
    ApprovalOk(sha, s0, bytes);
  }

  lemma ApprovalOk(sha: Hash, s0: System, bytes: Bytes)
    requires s0 == Submitted(sha, bytes, false, LocalApproval, OPEN_POLICY)
    requires Run(sha, s0, ToApproved()).w == ByA(sha, bytes)
    ensures WorldOk(ByA(sha, bytes))
  {
    SubmittedOk(sha, bytes, false, LocalApproval, OPEN_POLICY);
    RunKeepsInv(sha, s0, ToApproved());
  }

  /** Maintenance retries the release. */
  function Maintenance(): seq<Event> {
    Spawned(3, Release, 11)
  }

  lemma {:induction false} AloneShift(sha: Hash, w: World, op: Op, l: Local, script: seq<Choice>, i: nat, k: nat)
    requires k <= i <= |script|
    ensures Alone(sha, w, op, l, script, i) == Alone(sha, w, op, l, script[k..], i - k)
    decreases |script| - i
  {
    if i < |script| && !l.pc.Gone? {
      var (w', l') := Act(sha, w, op, l, script[i]);
      AloneShift(sha, w', op, l', script, i + 1, k);
    }
  }

  lemma {:induction false} ReleaseStarts(sha: Hash, w: World, script: seq<Choice>)
    requires |script| >= 1 && Calm(script)
    ensures Alone(sha, w, Release, BEGIN, script, 0) == Alone(sha, w, Release, RELEASING, script[1..], 0)
  {
    Forward(sha, w, Release, BEGIN, script, 0, w, RELEASING);
    AloneShift(sha, w, Release, RELEASING, script, 1, 1);
  }

  /** A first release from its thread's start. */
  lemma MaintenanceAlone(sha: Hash, w: World)
    requires WorldOk(w) && w.row.state.Approved? && w.row.place.Isolation? && w.iso.Some?
    requires w.runtime && Permits(w.policy, w.row)
    ensures Alone(sha, w, Release, BEGIN, Script(11), 0).0 == AfterSteps(w, 10)
  {
    var script := Script(11);
    ReleaseStarts(sha, w, script);
    ReleaseFromIsolation(sha, w, script[1..]);
  }

  lemma MaintenanceReleases(sha: Hash, s: System)
    requires WorldOk(s.w) && s.w.row.state.Approved? && s.w.row.place.Isolation? && s.w.iso.Some?
    requires s.w.runtime && Permits(s.w.policy, s.w.row) && 3 !in s.threads
    ensures var s' := Run(sha, s, Maintenance());
            && s'.w == AfterSteps(s.w, 10) && s'.tampered == s.tampered
            && forall t :: t in s.threads ==> t in s'.threads && s'.threads[t] == s.threads[t]
  {
    SpawnedAlone(sha, s, 3, Release, Script(11));
    MaintenanceAlone(sha, s.w);
  }

  lemma ApprovedByA(sha: Hash, bytes: Bytes)
    ensures var w := ByA(sha, bytes);
            && w.row.state.Approved? && w.row.place.Isolation? && w.iso == Some(File(bytes, false)) && w.runtime
            && Permits(w.policy, w.row) && w.row.actor == Some(Approver("a"))
  {
  }

  /** A transfer approved by a, with approver b past the guard and nobody releasing yet. */
  ghost predicate ApprovedState(bytes: Bytes, s: System) {
    && WorldOk(s.w) && !s.tampered
    && s.w.row.state.Approved? && s.w.row.place.Isolation? && s.w.row.actor == Some(Approver("a"))
    && s.w.iso == Some(File(bytes, false)) && s.w.green.None? && s.w.runtime && Permits(s.w.policy, s.w.row)
    && s.threads.Keys == {0, 1, 2}
    && s.threads[1] == Thread(APPROVER_B, BEGIN.(pc := VerifyForApproval))
    && s.threads[2].local == Local(ReleaseRead, NO_PASS.(verified := true), Isolation)
  }

  /** Whatever follows the approval follows it from such a state. */
  lemma {:induction false} ApprovedRun(sha: Hash, bytes: Bytes, rest: seq<Event>) returns (s: System)
    ensures ApprovedState(bytes, s)
    ensures Run(sha, Submitted(sha, bytes, false, LocalApproval, OPEN_POLICY), ToApproved() + rest) == Run(sha, s, rest)
  {
    s := AtApproval(sha, bytes);
    ReachesApproval(sha, bytes);
    ApprovedByA(sha, bytes);
    RunAppend(sha, Submitted(sha, bytes, false, LocalApproval, OPEN_POLICY), ToApproved(), rest);
  }

  /**
   A released transfer is undone, with nobody having touched its payload: the approver who had passed
   the guard before the other one decided hashes the isolation path after the release has emptied it,
   takes that for a broken payload, expires the released transfer and signs it.
   */
  lemma ReleasedTransferUndone(sha: Hash, bytes: Bytes)
    ensures var s0 := Submitted(sha, bytes, false, LocalApproval, OPEN_POLICY);
            var s1 := Run(sha, s0, ToApproved() + Maintenance());
            var s2 := Run(sha, s0, ToApproved() + (Maintenance() + Steps(1, Script(3), 0)));
            && !s2.tampered
            && s1.w.row.state.ReleasedToGreen? && s1.w.row.actor == Some(Approver("a"))
            && s2.w.row.state.Expired? && s2.w.row.actor == Some(Approver("b"))
            && s2.w.green.Some? && s2.w.green.value.bytes == bytes
  {
    var s := ApprovedRun(sha, bytes, Maintenance());
    var s' := ApprovedRun(sha, bytes, Maintenance() + Steps(1, Script(3), 0));
    ReleaseIsUndone(sha, bytes, s);
    ReleaseIsUndone(sha, bytes, s');
  }

  lemma ReleaseIsUndone(sha: Hash, bytes: Bytes, s: System)
    requires ApprovedState(bytes, s)
    ensures var s1 := Run(sha, s, Maintenance());
            var s2 := Run(sha, s, Maintenance() + Steps(1, Script(3), 0));
            && !s2.tampered
            && s1.w.row.state.ReleasedToGreen? && s1.w.row.actor == Some(Approver("a"))
            && s2.w.row.state.Expired? && s2.w.row.actor == Some(Approver("b"))
            && s2.w.green.Some? && s2.w.green.value.bytes == bytes
  {
    var s1 := Run(sha, s, Maintenance());
    MaintenanceReleases(sha, s);
    RunAppend(sha, s, Maintenance(), Steps(1, Script(3), 0));
    AloneIsRun(sha, s1, 1, Script(3), 0);
    OvertakenExpires(sha, s1.w);
  }

  lemma RewritingKeepsWorld(w: World, other: Bytes)
    requires WorldOk(w) && w.iso.Some?
    ensures WorldOk(w.(iso := Some(File(other, false))))
  {
  }

  lemma RewrittenReleases(sha: Hash, s: System, other: Bytes)
    requires WorldOk(s.w) && s.w.row.state.Approved? && s.w.row.place.Isolation? && s.w.iso.Some?
    requires !s.w.iso.value.sealed && s.w.runtime && Permits(s.w.policy, s.w.row) && 3 !in s.threads
    ensures var s' := Run(sha, s, [Tamper(Isolation, other)] + Maintenance());
            s'.tampered && s'.w == AfterSteps(s.w.(iso := Some(File(other, false))), 10)
  {
    var s2 := s.(w := s.w.(iso := Some(File(other, false))), tampered := true);
    assert Next(sha, s, Tamper(Isolation, other)) == s2;
    assert ([Tamper(Isolation, other)] + Maintenance())[1..] == Maintenance();
    RewritingKeepsWorld(s.w, other);
    MaintenanceReleases(sha, s2);
  }

  /** A payload rewritten after the approval is released as it is, when no earlier attempt has moved it. */
  lemma RewrittenPayloadReleased(sha: Hash, bytes: Bytes, other: Bytes)
    ensures var s0 := Submitted(sha, bytes, false, LocalApproval, OPEN_POLICY);
            var s := Run(sha, s0, ToApproved() + ([Tamper(Isolation, other)] + Maintenance()));
            s.tampered && s.w.row.state.ReleasedToGreen? && s.w.green.Some? && s.w.green.value.bytes == other
  {
    var s := ApprovedRun(sha, bytes, [Tamper(Isolation, other)] + Maintenance());
    RewrittenArrives(sha, bytes, s, other);
  }

  lemma RewrittenArrives(sha: Hash, bytes: Bytes, s: System, other: Bytes)
    requires ApprovedState(bytes, s)
    ensures var s' := Run(sha, s, [Tamper(Isolation, other)] + Maintenance());
            s'.tampered && s'.w.row.state.ReleasedToGreen? && s'.w.green.Some? && s'.w.green.value.bytes == other
  {
    RewrittenReleases(sha, s, other);
  }

  // ------------------------------------------------------------------------------------------
  // Whoever may undo a decision can
  // ------------------------------------------------------------------------------------------

  /**
   Thread t is on the way to an expiry that will find the state it has read, is a release that finds the policy
   withdrawn, or is an approver past the guard whom a release can overtake or has overtaken.
   */
  ghost predicate Threatens(sha: Hash, s: System, t: ThreadId) {
    && t in s.threads
    && var w, op, l := s.w, s.threads[t].op, s.threads[t].local;
       match l.pc
       case Reading(m) => m.to.Expired?
       case Swapping(from, m) => m.to.Expired? && from == w.row.state
       case ReleaseRead => w.runtime && w.row.state.Approved? && !Permits(w.policy, w.row)
       case VerifyForApproval => !Intact(sha, w, l.path) || Overtakable(w, l)
       case _ => false
  }

  /** A release of this transfer would go through, and take the payload from where the approver will look. */
  predicate Overtakable(w: World, l: Local) {
    && l.path.Isolation? && w.row.state.Approved? && w.row.place.Isolation? && w.iso.Some?
    && w.runtime && Permits(w.policy, w.row)
  }

  /** The steps of the thread, behind a release where that has to come first. */
  ghost function Undoing(sha: Hash, s: System, t: ThreadId): seq<Event>
    requires t in s.threads
  {
    var l := s.threads[t].local;
    if l.pc.VerifyForApproval? && Intact(sha, s.w, l.path) then Maintenance() + Steps(t, Script(3), 0)
    else Steps(t, Script(3), 0)
  }

  lemma {:induction false} ExpiryStays(sha: Hash, w: World, op: Op, l: Local, script: seq<Choice>, i: nat)
    requires WorldOk(w) && LocalOk(w, op, l) && w.row.state.Expired?
    ensures Alone(sha, w, op, l, script, i).0.row.state.Expired?
    decreases |script| - i
  {
    if i < |script| && !l.pc.Gone? {
      var (w1, l1) := Act(sha, w, op, l, script[i]);
      ActKeeps(sha, w, op, l, script[i]);
      ExpiryStays(sha, w1, op, l1, script, i + 1);
    }
  }

  /** From the read of an expiry on. */
  lemma {:induction false} DoomedAlone(sha: Hash, w: World, op: Op, l: Local, i: nat)
    requires WorldOk(w) && LocalOk(w, op, l) && l.pc.Reading? && l.pc.m.to.Expired? && Allowed(w.row.state, Expired)
    requires i <= 1
    ensures Alone(sha, w, op, l, Script(3), i).0.row.state.Expired?
  {
    var m := l.pc.m;
    var w1, l1 := Swap(w, w.row.state, m, l.pass), l.(pc := Resume(m.next));
    TransitionAlone(sha, w, op, l, m, Script(3), i);
    SwapKeeps(w, l, m);
    ResumeOk(w1, op, l, m.next);
    ExpiryStays(sha, w1, op, l1, Script(3), i + 2);
  }

  lemma {:induction false} SwappingExpires(sha: Hash, w: World, op: Op, l: Local)
    requires WorldOk(w) && LocalOk(w, op, l) && l.pc.Swapping? && l.pc.m.to.Expired? && l.pc.from == w.row.state
    ensures Alone(sha, w, op, l, Script(3), 0).0.row.state.Expired?
  {
    var w1, l1 := Swap(w, w.row.state, l.pc.m, l.pass), l.(pc := Resume(l.pc.m.next));
    Forward(sha, w, op, l, Script(3), 0, w1, l1);
    SwapKeeps(w, l, l.pc.m);
    ResumeOk(w1, op, l, l.pc.m.next);
    ExpiryStays(sha, w1, op, l1, Script(3), 1);
  }

  /** From the guard on: the policy is withdrawn, or the payload is not where the approver looks. */
  lemma {:induction false} GuardExpires(sha: Hash, w: World, op: Op, l: Local)
    requires WorldOk(w) && LocalOk(w, op, l) && Allowed(w.row.state, Expired)
    requires || (l.pc.ReleaseRead? && w.runtime && w.row.state.Approved? && !Permits(w.policy, w.row))
             || (l.pc.VerifyForApproval? && !Intact(sha, w, l.path))
    ensures Alone(sha, w, op, l, Script(3), 0).0.row.state.Expired?
  {
    var m := To(Expired, ToEnd(false), ToEnd(false));
    var l1 := l.(pc := Reading(if l.pc.ReleaseRead? then m else m.(actor := DecidingActor(op))));
    Forward(sha, w, op, l, Script(3), 0, w, l1);
    DoomedAlone(sha, w, op, l1, 1);
  }

  lemma {:induction false} StepsUndo(sha: Hash, s: System, t: ThreadId)
    requires Inv(sha, s) && Allowed(s.w.row.state, Expired) && Threatens(sha, s, t)
    requires s.threads[t].local.pc.VerifyForApproval? ==> !Intact(sha, s.w, s.threads[t].local.path)
    ensures Run(sha, s, Steps(t, Script(3), 0)).w.row.state.Expired?
  {
    var op, l := s.threads[t].op, s.threads[t].local;
    AloneIsRun(sha, s, t, Script(3), 0);
    if l.pc.Reading? {
      DoomedAlone(sha, s.w, op, l, 0);
    } else if l.pc.Swapping? {
      SwappingExpires(sha, s.w, op, l);
    } else {
      GuardExpires(sha, s.w, op, l);
    }
  }

  /**
   The converse of what makes a decision stand: from every reachable decided state in which some thread threatens the
   decision, that thread's own steps, behind a release at most, expire the transfer.
   */
  lemma {:induction false} ThreatIsReal(sha: Hash, s: System, t: ThreadId)
    requires Inv(sha, s) && Made(s.w) && !s.w.row.state.Expired? && Threatens(sha, s, t) && 3 !in s.threads
    ensures Run(sha, s, Undoing(sha, s, t)).w.row.state.Expired?
  {
    var l := s.threads[t].local;
    MadeStates(s.w);
    if l.pc.VerifyForApproval? && Intact(sha, s.w, l.path) {
      var s1 := Run(sha, s, Maintenance());
      RunAppend(sha, s, Maintenance(), Steps(t, Script(3), 0));
      MaintenanceReleases(sha, s);
      RunKeepsInv(sha, s, Maintenance());
      StepsUndo(sha, s1, t);
    } else {
      StepsUndo(sha, s, t);
    }
  }

  /** And an explicit expiry undoes it at any time. */
  lemma {:induction false} ExpiryUndoes(sha: Hash, s: System, t: ThreadId)
    requires Inv(sha, s) && Made(s.w) && !s.w.row.state.Expired? && t !in s.threads
    ensures Run(sha, s, Spawned(t, Expire, 3)).w.row.state.Expired?
  {
    var l := BEGIN.(pc := Reading(To(Expired, ToEnd(true), ToEnd(false))));
    MadeStates(s.w);
    SpawnedAlone(sha, s, t, Expire, Script(3));
    Forward(sha, s.w, Expire, BEGIN, Script(3), 0, s.w, l);
    DoomedAlone(sha, s.w, Expire, l, 1);
  }
}
