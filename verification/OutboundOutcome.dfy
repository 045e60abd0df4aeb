/**
 What one decision, one relay callback and one release come to when nothing disturbs them: the whole transfer
 afterwards, its files, its row and the event table, in every case.
 */
module OutboundOutcome {
  import opened Basics
  import opened Outbound
  import opened OutboundScan

  // ------------------------------------------------------------------------------------------
  // A decision
  // ------------------------------------------------------------------------------------------

  /** The decision is taken, and an approval also delivered. */
  ghost predicate Succeeds(sha: Hash, w: World, approve: bool, expired: bool) {
    && w.row.state.PendingApproval? && Permitted(w.policy, w.row) && !expired
    && (approve ==> Authentic(sha, w) && w.runtime)
  }

  /** Released to green with these bytes, in this name. */
  ghost predicate Promoted(w: World, w': World, actor: Option<Actor>, bytes: Bytes) {
    && w'.row == w.row.(state := ReleasedToGreen, place := Green, actor := actor)
    && w'.iso.None? && w'.greenDir && w'.green == Some(File(bytes, true))
    && w'.callbacks == w.callbacks && w'.policy == w.policy && w'.runtime == w.runtime && w'.dropped == w.dropped
  }

  /** Where a decision ends; `expired` says whether the approval request has run out. */
  ghost predicate DecisionEnds(sha: Hash, w: World, actor: Actor, approve: bool, expired: bool, w': World) {
    var signed := w.row.(actor := Some(actor));
    if !w.row.state.PendingApproval? || !Permitted(w.policy, w.row) then w' == w
    else if expired then Held(w, w', w.row.(state := Expired))
    else if !approve then Held(w, w', signed.(state := ApprovalRejected))
    else if !Authentic(sha, w) then Held(w, w', signed.(state := Expired))
    else if !w.runtime then Held(w, w', signed.(state := Approved))
    else w.iso.Some? && Promoted(w, w', Some(actor), w.iso.value.bytes)
  }

  /** An approved transfer after its first release, with the evidence the release has collected. */
  function Shipped(w: World, pass: Pass): World
    requires w.iso.Some?
  {
    w.(row := w.row.(state := ReleasedToGreen, place := Green), iso := None, greenDir := true,
       green := Some(File(w.iso.value.bytes, true)), log := w.log + [Changed(Approved, ReleasedToGreen, None, pass)])
  }

  const TO_GREEN: Move := To(ReleasedToGreen, ToEnd(true), ToEnd(false))

  /** From the start of a first release to its end. */
  lemma {:induction false} PromoteAlone(sha: Hash, w: World, op: Op, l: Local, script: seq<Choice>, i: nat)
    requires l.pc.ReleaseRead? && w.row.state.Approved? && w.row.place.Isolation? && w.iso.Some? && w.green.None?
    requires w.runtime && Permits(w.policy, w.row) && i + 9 <= |script| && Calm(script)
    ensures var l1 := l.(pass := l.pass.(permitted := true), path := Isolation);
            Alone(sha, w, op, l, script, i) ==
            Alone(sha, Shipped(w, l1.pass), op, l1.(pc := Ending(true)), script, i + 9)
  {
    var l1 := l.(pass := l.pass.(permitted := true), path := Isolation);
    var w1 := w.(greenDir := true);
    Forward(sha, w, op, l, script, i, w, l1.(pc := MakeDir));
    Forward(sha, w, op, l1.(pc := MakeDir), script, i + 1, w1, l1.(pc := TargetExists));
    Forward(sha, w1, op, l1.(pc := TargetExists), script, i + 2, w1, l1.(pc := MoveFile));
    RenameAlone(sha, w1, op, l1, script, i + 3);
    assert Shipped(w1, l1.pass) == Shipped(w, l1.pass);
  }

  lemma {:induction false} RenameAlone(sha: Hash, w: World, op: Op, l: Local, script: seq<Choice>, i: nat)
    requires w.row.state.Approved? && w.iso.Some? && w.greenDir && i + 6 <= |script| && Calm(script)
    ensures Alone(sha, w, op, l.(pc := MoveFile), script, i) ==
            Alone(sha, Shipped(w, l.pass), op, l.(pc := Ending(true)), script, i + 6)
  {
    var w1 := w.(green := w.iso, iso := None);
    var w2 := w1.(row := w.row.(place := Green));
    assert w2.(iso := None) == w2;
    Forward(sha, w, op, l.(pc := MoveFile), script, i, w1, l.(pc := SavePath));
    Forward(sha, w1, op, l.(pc := SavePath), script, i + 1, w2, l.(pc := DropSource));
    Forward(sha, w2, op, l.(pc := DropSource), script, i + 2, w2, l.(pc := Seal));
    ShipAlone(sha, w2, op, l, script, i + 3);
  }

  lemma {:induction false} ShipAlone(sha: Hash, w: World, op: Op, l: Local, script: seq<Choice>, i: nat)
    requires w.row.state.Approved? && w.green.Some? && i + 3 <= |script| && Calm(script)
    ensures Alone(sha, w, op, l.(pc := Seal), script, i) ==
            Alone(sha, Swap(w.(green := Some(File(w.green.value.bytes, true))), Approved, TO_GREEN, l.pass), op,
                  l.(pc := Ending(true)), script, i + 3)
  {
    var w1 := w.(green := Some(w.green.value.(sealed := true)));
    Forward(sha, w, op, l.(pc := Seal), script, i, w1, l.(pc := Reading(TO_GREEN)));
    TransitionAlone(sha, w1, op, l.(pc := Reading(TO_GREEN)), TO_GREEN, script, i + 1);
  }

  /** A decision from its first check to its end, after the approval was asked for in the name of `actor`. */
  lemma {:induction false} DecisionAlone(sha: Hash, w: World, op: Op, actor: Actor, l: Local, script: seq<Choice>,
                                         i: nat)
                                        returns (j: nat, w': World, l': Local)
    requires WorldOk(w) && l.pc.Deciding? && DecidingActor(op) == Some(actor)
    requires i + 13 <= |script| && Calm(script)
    ensures i <= j <= i + 13 && Alone(sha, w, op, l, script, i) == Alone(sha, w', op, l', script, j)
    ensures l'.pc == Ending(Succeeds(sha, w, Approves(op), script[i].expired))
    ensures DecisionEnds(sha, w, actor, Approves(op), script[i].expired, w')
  {
    if !w.row.state.PendingApproval? || !Permits(w.policy, w.row) {
      j, w', l' := i + 1, w, l.(path := w.row.place, pc := Ending(false));
      Forward(sha, w, op, l, script, i, w, l');
    } else if script[i].expired {
      j, w', l' := OverdueAlone(sha, w, op, actor, l, script, i);
    } else if !Approves(op) {
      j, w', l' := RejectionAlone(sha, w, op, actor, l, script, i);
    } else {
      var l1 := l.(path := w.row.place, pc := VerifyForApproval);
      Forward(sha, w, op, l, script, i, w, l1);
      j, w', l' := ApprovalAlone(sha, w, op, actor, l1, script, i + 1);
    }
  }

  lemma {:induction false} OverdueAlone(sha: Hash, w: World, op: Op, actor: Actor, l: Local, script: seq<Choice>,
                                        i: nat)
                                       returns (j: nat, w': World, l': Local)
    requires w.row.state.PendingApproval? && Permits(w.policy, w.row) && l.pc.Deciding?
    requires i + 3 <= |script| && Calm(script) && script[i].expired
    ensures j == i + 3 && Alone(sha, w, op, l, script, i) == Alone(sha, w', op, l', script, j)
    ensures l'.pc == Ending(Succeeds(sha, w, Approves(op), true))
    ensures DecisionEnds(sha, w, actor, Approves(op), true, w')
  {
    var l1, m := l.(path := w.row.place), To(Expired, ToEnd(false), ToEnd(false));
    Forward(sha, w, op, l, script, i, w, l1.(pc := Reading(m)));
    TransitionAlone(sha, w, op, l1.(pc := Reading(m)), m, script, i + 1);
    j, w', l' := i + 3, Swap(w, PendingApproval, m, l1.pass), l1.(pc := Ending(false));
  }

  lemma {:induction false} RejectionAlone(sha: Hash, w: World, op: Op, actor: Actor, l: Local, script: seq<Choice>,
                                          i: nat)
                                         returns (j: nat, w': World, l': Local)
    requires w.row.state.PendingApproval? && Permits(w.policy, w.row) && l.pc.Deciding?
    requires DecidingActor(op) == Some(actor) && !Approves(op)
    requires i + 3 <= |script| && Calm(script) && !script[i].expired
    ensures j == i + 3 && Alone(sha, w, op, l, script, i) == Alone(sha, w', op, l', script, j)
    ensures l'.pc == Ending(Succeeds(sha, w, false, false)) && DecisionEnds(sha, w, actor, false, false, w')
  {
    var l1, m := l.(path := w.row.place), To(ApprovalRejected, ToEnd(true), ToEnd(false)).(actor := Some(actor));
    Forward(sha, w, op, l, script, i, w, l1.(pc := Reading(m)));
    TransitionAlone(sha, w, op, l1.(pc := Reading(m)), m, script, i + 1);
    j, w', l' := i + 3, Swap(w, PendingApproval, m, l1.pass), l1.(pc := Ending(true));
  }

  lemma {:induction false} ApprovalAlone(sha: Hash, w: World, op: Op, actor: Actor, l: Local, script: seq<Choice>,
                                         i: nat)
                                        returns (j: nat, w': World, l': Local)
    requires WorldOk(w) && w.row.state.PendingApproval? && Permits(w.policy, w.row)
    requires l.pc.VerifyForApproval? && l.path == w.row.place && DecidingActor(op) == Some(actor)
    requires i + 12 <= |script| && Calm(script)
    ensures i <= j <= i + 12 && Alone(sha, w, op, l, script, i) == Alone(sha, w', op, l', script, j)
    ensures l'.pc == Ending(Succeeds(sha, w, true, false)) && DecisionEnds(sha, w, actor, true, false, w')
  {
    if Intact(sha, w, l.path) {
      var m := To(Approved, ToRelease, ToEnd(false)).(actor := Some(actor));
      var l1 := l.(pass := l.pass.(verified := true), pc := ReleaseRead);
      VerifiedAlone(sha, w, op, actor, l, script, i);
      j, w', l' := ApprovedAlone(sha, w, op, actor, l1, m, script, i + 3);
    } else {
      j, w', l' := DamagedAlone(sha, w, op, actor, l, script, i);
    }
  }

  lemma {:induction false} VerifiedAlone(sha: Hash, w: World, op: Op, actor: Actor, l: Local, script: seq<Choice>,
                                         i: nat)
    requires w.row.state.PendingApproval? && Intact(sha, w, l.path) && l.pc.VerifyForApproval?
    requires DecidingActor(op) == Some(actor) && i + 3 <= |script| && Calm(script)
    ensures var m := To(Approved, ToRelease, ToEnd(false)).(actor := Some(actor));
            var l1 := l.(pass := l.pass.(verified := true), pc := ReleaseRead);
            Alone(sha, w, op, l, script, i) == Alone(sha, Swap(w, PendingApproval, m, l1.pass), op, l1, script, i + 3)
  {
    var m := To(Approved, ToRelease, ToEnd(false)).(actor := Some(actor));
    var l1 := l.(pass := l.pass.(verified := true), pc := Reading(m));
    Forward(sha, w, op, l, script, i, w, l1);
    TransitionAlone(sha, w, op, l1, m, script, i + 1);
  }

  lemma {:induction false} DamagedAlone(sha: Hash, w: World, op: Op, actor: Actor, l: Local, script: seq<Choice>,
                                        i: nat)
                                       returns (j: nat, w': World, l': Local)
    requires w.row.state.PendingApproval? && Permits(w.policy, w.row) && !Intact(sha, w, l.path)
    requires l.pc.VerifyForApproval? && l.path == w.row.place
    requires DecidingActor(op) == Some(actor) && i + 3 <= |script| && Calm(script)
    ensures j == i + 3 && Alone(sha, w, op, l, script, i) == Alone(sha, w', op, l', script, j)
    ensures l'.pc == Ending(Succeeds(sha, w, true, false)) && DecisionEnds(sha, w, actor, true, false, w')
  {
    var m := To(Expired, ToEnd(false), ToEnd(false)).(actor := Some(actor));
    Forward(sha, w, op, l, script, i, w, l.(pc := Reading(m)));
    TransitionAlone(sha, w, op, l.(pc := Reading(m)), m, script, i + 1);
    j, w', l' := i + 3, Swap(w, PendingApproval, m, l.pass), l.(pc := Ending(false));
  }

  /** The release behind the approval. */
  lemma {:induction false} ApprovedAlone(sha: Hash, w: World, op: Op, actor: Actor, l: Local, m: Move,
                                         script: seq<Choice>, i: nat)
                                        returns (j: nat, w': World, l': Local)
    requires WorldOk(w) && w.row.state.PendingApproval? && Permits(w.policy, w.row) && Authentic(sha, w)
    requires l.pc.ReleaseRead? && m == To(Approved, ToRelease, ToEnd(false)).(actor := Some(actor))
    requires i + 9 <= |script| && Calm(script)
    ensures i <= j <= i + 9
    ensures Alone(sha, Swap(w, PendingApproval, m, l.pass), op, l, script, i) == Alone(sha, w', op, l', script, j)
    ensures l'.pc == Ending(Succeeds(sha, w, true, false)) && DecisionEnds(sha, w, actor, true, false, w')
  {
    var w1 := Swap(w, PendingApproval, m, l.pass);
    if w.runtime {
      assert w.row.place.Isolation? && w.iso.Some? && w.green.None?;
      PromoteAlone(sha, w1, op, l, script, i);
      var l1 := l.(pass := l.pass.(permitted := true), path := Isolation);
      j, w', l' := i + 9, Shipped(w1, l1.pass), l1.(pc := Ending(true));
    } else {
      j, w', l' := i + 1, w1, l.(pc := Ending(false));
      Forward(sha, w1, op, l, script, i, w1, l');
    }
  }

  predicate Undisturbed(script: seq<Choice>) {
    |script| >= 20 && Calm(script)
  }

  /**
   A local approver's undisturbed decision. On a transfer with enterprise approval, one that is not waiting, or one the
   policy in force no longer permits it changes nothing; a request that has run out expires the transfer, in nobody's
   name; a rejection takes the approver's name; an approval of a payload that is not the recorded one expires the
   transfer in the approver's name, and an approval of the recorded one releases exactly its bytes, or waits as
   approved while the runtime is not accepted.
   */
  lemma {:induction false} DecideOutcome(sha: Hash, w: World, approve: bool, name: Name, script: seq<Choice>)
    requires WorldOk(w) && Undisturbed(script)
    ensures var w' := Alone(sha, w, Decide(approve, name), BEGIN, script, 0).0;
            if w.row.provider.LocalApproval? then
              DecisionEnds(sha, w, Approver(name), approve, script[1].expired, w')
            else w' == w
  {
    var op := Decide(approve, name);
    if w.row.provider.LocalApproval? {
      Forward(sha, w, op, BEGIN, script, 0, w, BEGIN.(pc := Deciding));
      var j, w', l' := DecisionAlone(sha, w, op, Approver(name), BEGIN.(pc := Deciding), script, 1);
      EndingStays(sha, w', op, l', script, j);
    } else {
      Forward(sha, w, op, BEGIN, script, 0, w, BEGIN.(pc := Gone));
    }
  }

  // ------------------------------------------------------------------------------------------
  // A release
  // ------------------------------------------------------------------------------------------

  /** Whatever is raised, a release attempt changes nothing without an accepted runtime and a durable approval. */
  lemma {:induction false} UnapprovedAlone(sha: Hash, w: World, script: seq<Choice>)
    requires !w.runtime || !w.row.state.Approved?
    ensures Alone(sha, w, Release, RELEASING, script, 0).0 == w
  {
    if |script| >= 1 {
      var l := RELEASING.(pc := Ending(script[0].ok && w.runtime && w.row.state.ReleasedToGreen?));
      assert Alone(sha, w, Release, RELEASING, script, 0) == Alone(sha, w, Release, l, script, 1);
      EndingStays(sha, w, Release, l, script, 1);
    }
  }

  /**
   An undisturbed release attempt changes nothing while the runtime is not accepted, nor on a transfer without a
   durable approval. An approved transfer that the policy in force no longer permits expires, and keeps the name of
   its approver; one it permits, whose payload is still in isolation, is released with exactly its bytes.
   */
  lemma {:induction false} ReleaseOutcome(sha: Hash, w: World, script: seq<Choice>)
    requires WorldOk(w) && Undisturbed(script)
    ensures var w' := Alone(sha, w, Release, RELEASING, script, 0).0;
            && (!w.runtime || !w.row.state.Approved? ==> w' == w)
            && (w.runtime && w.row.state.Approved? && !Permitted(w.policy, w.row) ==>
                  Held(w, w', w.row.(state := Expired)))
            && (w.runtime && w.row.state.Approved? && Permitted(w.policy, w.row) && w.iso.Some? ==>
                  Promoted(w, w', w.row.actor, w.iso.value.bytes))
  {
    if !w.runtime || !w.row.state.Approved? {
      var l := RELEASING.(pc := Ending(w.runtime && w.row.state.ReleasedToGreen?));
      Forward(sha, w, Release, RELEASING, script, 0, w, l);
      EndingStays(sha, w, Release, l, script, 1);
    } else if !Permits(w.policy, w.row) {
      var m := To(Expired, ToEnd(false), ToEnd(false));
      Forward(sha, w, Release, RELEASING, script, 0, w, RELEASING.(pc := Reading(m)));
      MoveEnds(sha, w, Release, RELEASING.(pc := Reading(m)), m, script, 1);
    } else if w.iso.Some? {
      assert w.row.place.Isolation? && w.green.None?;
      var l := RELEASING.(pass := NO_PASS.(permitted := true));
      PromoteAlone(sha, w, Release, RELEASING, script, 0);
      EndingStays(sha, Shipped(w, l.pass), Release, l.(pc := Ending(true)), script, 9);
    }
  }

  // ------------------------------------------------------------------------------------------
  // A relay callback
  // ------------------------------------------------------------------------------------------

  /** The request is not for this transfer, or reuses an event for another payload. */
  ghost predicate Foreign(w: World, op: Op)
    requires op.Callback?
  {
    || w.row.approvalId != Some(op.approvalId) || !w.row.provider.WeCom?
    || (op.event in w.callbacks && w.callbacks[op.event].payloadHash != op.payloadHash)
  }

  /** A request for another approval, or on a transfer with local approval, changes nothing, faults or not. */
  lemma {:induction false} ForeignIsInert(sha: Hash, w: World, op: Op, script: seq<Choice>)
    requires op.Callback? && Foreign(w, op)
    ensures Alone(sha, w, op, BEGIN, script, 0).0 == w
  {
    if |script| >= 1 {
      assert Alone(sha, w, op, BEGIN, script, 0) == Alone(sha, w, op, BEGIN.(pc := Gone), script, 1);
    }
  }

  /** The world behind the event table. */
  function Behind(w: World, w': World): World {
    w'.(callbacks := w.callbacks)
  }

  /**
   Where a callback ends that is for this transfer and not a duplicate. On an approved transfer that it approves it is
   one more attempt of the release; on a decided one it confirms its own decision; otherwise it decides. The event
   table says which way it went.
   */
  ghost predicate CallbackEnds(sha: Hash, w: World, op: Op, expired: bool, attempt: World, w': World)
    requires op.Callback?
  {
    var actor := Relay(op.relayUser, op.event);
    var good := if w.row.state.Approved? && op.decision then w'.row.state.ReleasedToGreen?
                else if (w.row.state.ReleasedToGreen? && op.decision) || (w.row.state.ApprovalRejected? && !op.decision)
                then w.row.actor == Some(actor) else Succeeds(sha, w, op.decision, expired);
    && w'.callbacks == w.callbacks[op.event := CallbackRow(op.payloadHash, if good then Processed else Errored)]
    && if w.row.state.Approved? && op.decision then Behind(w, w') == attempt
       else DecisionEnds(sha, w, actor, op.decision, expired, Behind(w, w'))
  }

  /** How many steps a release can still take. */
  function StepsLeft(pc: Pc): nat {
    match pc
    case ReleaseRead => 10
    case MakeDir => 9
    case TargetExists => 8
    case SourceGone => 7
    case VerifyTarget => 6
    case MoveFile => 6
    case SavePath => 5
    case DropSource => 4
    case Seal => 3
    case Reading(_) => 2
    case Swapping(_, _) => 1
    case FailedMove => 2
    case DropDir => 1
    case _ => 0
  }

  predicate InAttempt(l: Local) {
    || InRelease(l.pc) || l.pc.Ending?
    || ((l.pc.Reading? || l.pc.Swapping?) && l.pc.m.fail == ToEnd(false)
        && (l.pc.m == TO_GREEN || l.pc.m == To(Expired, ToEnd(false), ToEnd(false))))
  }

  /** What an attempt keeps, and that it has succeeded exactly when the transfer is released. */
  ghost predicate Attempted(w: World, w': World, l': Local) {
    && w'.callbacks == w.callbacks && w'.policy == w.policy && w'.runtime == w.runtime
    && (l'.pc.Ending? ==> (l'.pc.ok <==> w'.row.state.ReleasedToGreen?))
    && (l'.pc.Ending? || !w'.row.state.ReleasedToGreen?)
  }

  function WithTable(w: World, callbacks: map<EventId, CallbackRow>): World {
    w.(callbacks := callbacks)
  }

  lemma AttemptStep(sha: Hash, w: World, l: Local, op: Op, c: Choice, table: map<EventId, CallbackRow>)
    requires InAttempt(l) && !l.pc.Ending? && !w.row.state.ReleasedToGreen? && c.ok
    ensures var (w', l') := Act(sha, w, op, l, c);
            && InAttempt(l') && Attempted(w, w', l') && StepsLeft(l'.pc) < StepsLeft(l.pc)
            && Act(sha, WithTable(w, table), Release, l, c) == (WithTable(w', table), l')
  {
    if InRelease(l.pc) {
      ReleaseAttempts(sha, w, l, table);
    } else {
      MoveAttempts(w, l, op, table);
    }
  }

  lemma ReleaseAttempts(sha: Hash, w: World, l: Local, table: map<EventId, CallbackRow>)
    requires InRelease(l.pc) && !w.row.state.ReleasedToGreen?
    ensures var (w', l') := ReleaseStep(sha, w, l);
            && InAttempt(l') && Attempted(w, w', l') && StepsLeft(l'.pc) < StepsLeft(l.pc)
            && ReleaseStep(sha, WithTable(w, table), l) == (WithTable(w', table), l')
  {
    ReleaseIgnoresTable(sha, w, l, table);
    ReleaseAdvances(sha, w, l);
  }

  lemma ReleaseIgnoresTable(sha: Hash, w: World, l: Local, table: map<EventId, CallbackRow>)
    ensures var (w', l') := ReleaseStep(sha, w, l);
            ReleaseStep(sha, WithTable(w, table), l) == (WithTable(w', table), l')
  {
  }

  lemma ReleaseAdvances(sha: Hash, w: World, l: Local)
    requires InRelease(l.pc) && !w.row.state.ReleasedToGreen?
    ensures var (w', l') := ReleaseStep(sha, w, l);
            InAttempt(l') && Attempted(w, w', l') && StepsLeft(l'.pc) < StepsLeft(l.pc)
  {
  }

  lemma MoveAttempts(w: World, l: Local, op: Op, table: map<EventId, CallbackRow>)
    requires InAttempt(l) && !l.pc.Ending? && !InRelease(l.pc) && !w.row.state.ReleasedToGreen?
    ensures var (w', l') := CommonStep(w, op, l);
            && InAttempt(l') && Attempted(w, w', l') && StepsLeft(l'.pc) < StepsLeft(l.pc)
            && CommonStep(WithTable(w, table), Release, l) == (WithTable(w', table), l')
  {
  }

  /** A release attempt takes the same steps whichever operation makes it, and whatever is in the event table. */
  lemma {:induction false} AttemptAlone(sha: Hash, w: World, op: Op, l: Local, script: seq<Choice>, i: nat,
                                        table: map<EventId, CallbackRow>)
                                       returns (j: nat, w': World, l': Local)
    requires InAttempt(l) && !l.pc.Ending? && !w.row.state.ReleasedToGreen?
    requires i + StepsLeft(l.pc) <= |script| && Calm(script)
    ensures i <= j <= i + StepsLeft(l.pc) && l'.pc.Ending? && Attempted(w, w', l')
    ensures Alone(sha, w, op, l, script, i) == Alone(sha, w', op, l', script, j)
    ensures Alone(sha, WithTable(w, table), Release, l, script, i) ==
            Alone(sha, WithTable(w', table), Release, l', script, j)
    decreases StepsLeft(l.pc)
  {
    var (w1, l1) := Act(sha, w, op, l, script[i]);
    AttemptStep(sha, w, l, op, script[i], table);
    Onward(sha, w, op, l, script, i);
    Onward(sha, WithTable(w, table), Release, l, script, i);
    if l1.pc.Ending? {
      j, w', l' := i + 1, w1, l1;
    } else {
      j, w', l' := AttemptAlone(sha, w1, op, l1, script, i + 1, table);
    }
  }

  /** A run only looks at the rest of its script. */
  lemma {:induction false} AloneShifts(sha: Hash, w: World, op: Op, l: Local, script: seq<Choice>, i: nat, k: nat)
    requires k <= i
    requires k <= |script|
    ensures Alone(sha, w, op, l, script, i) == Alone(sha, w, op, l, script[k..], i - k)
    decreases |script| - i
  {
    if i < |script| && !l.pc.Gone? {
      var (w1, l1) := Act(sha, w, op, l, script[i]);
      assert script[k..][i - k] == script[i];
      AloneShifts(sha, w1, op, l1, script, i + 1, k);
    }
  }

  /**
   An undisturbed callback, in every case. One for another approval, for a transfer with local approval, with an event
   that is recorded for another payload, or with an event that is processed, changes nothing. Any other ends as
   `CallbackEnds` says.
   */
  lemma {:induction false} CallbackOutcome(sha: Hash, w: World, op: Op, script: seq<Choice>)
    requires WorldOk(w) && op.Callback? && Undisturbed(script)
    ensures var w' := Alone(sha, w, op, BEGIN, script, 0).0;
            var known := op.event in w.callbacks;
            if Foreign(w, op) || (known && w.callbacks[op.event].outcome.Processed?) then w' == w
            else
              var k := if known then 2 else 3;
              CallbackEnds(sha, w, op, script[k].expired, Alone(sha, w, Release, RELEASING, script[k..], 0).0, w')
  {
    var known := op.event in w.callbacks;
    if Foreign(w, op) {
      ForeignIsInert(sha, w, op, script);
    } else if known && w.callbacks[op.event].outcome.Processed? {
      Forward(sha, w, op, BEGIN, script, 0, w, BEGIN.(pc := Gone));
    } else if known {
      LaterDelivery(sha, w, op, script);
    } else {
      FirstDelivery(sha, w, op, script);
    }
  }

  lemma {:induction false} LaterDelivery(sha: Hash, w: World, op: Op, script: seq<Choice>)
    requires WorldOk(w) && op.Callback? && Undisturbed(script) && !Foreign(w, op)
    requires op.event in w.callbacks && !w.callbacks[op.event].outcome.Processed?
    ensures CallbackEnds(sha, w, op, script[2].expired, Alone(sha, w, Release, RELEASING, script[2..], 0).0,
                         Alone(sha, w, op, BEGIN, script, 0).0)
  {
    Forward(sha, w, op, BEGIN, script, 0, w, BEGIN.(pc := Dispatch));
    DispatchAlone(sha, w, w, op, script, 1);
  }

  lemma {:induction false} FirstDelivery(sha: Hash, w: World, op: Op, script: seq<Choice>)
    requires WorldOk(w) && op.Callback? && Undisturbed(script) && !Foreign(w, op) && op.event !in w.callbacks
    ensures CallbackEnds(sha, w, op, script[3].expired, Alone(sha, w, Release, RELEASING, script[3..], 0).0,
                         Alone(sha, w, op, BEGIN, script, 0).0)
  {
    var w1 := w.(callbacks := w.callbacks[op.event := CallbackRow(op.payloadHash, Processing)]);
    Forward(sha, w, op, BEGIN, script, 0, w, BEGIN.(pc := Recording));
    Forward(sha, w, op, BEGIN.(pc := Recording), script, 1, w1, BEGIN.(pc := Dispatch));
    DispatchAlone(sha, w, w1, op, script, 2);
  }

  /** The world `w` with the event recorded. */
  ghost predicate Noted(w: World, w1: World, op: Op)
    requires op.Callback?
  {
    && w1 == w.(callbacks := w1.callbacks) && op.event in w1.callbacks
    && w1.callbacks[op.event].payloadHash == op.payloadHash
    && w1.callbacks == w.callbacks[op.event := w1.callbacks[op.event]]
  }

  lemma {:induction false} DispatchAlone(sha: Hash, w: World, w1: World, op: Op, script: seq<Choice>, i: nat)
    requires WorldOk(w) && op.Callback? && Noted(w, w1, op) && i <= 2 && Undisturbed(script)
    ensures CallbackEnds(sha, w, op, script[i + 1].expired,
                         Alone(sha, w, Release, RELEASING, script[i + 1..], 0).0,
                         Alone(sha, w1, op, BEGIN.(pc := Dispatch), script, i).0)
  {
    if w.row.state.Approved? && op.decision {
      RetryAlone(sha, w, w1, op, script, i);
    } else if (w.row.state.ReleasedToGreen? && op.decision) || (w.row.state.ApprovalRejected? && !op.decision) {
      ConfirmAlone(sha, w, w1, op, script, i);
    } else {
      ChoiceAlone(sha, w, w1, op, script, i);
    }
  }

  lemma {:induction false} ConfirmAlone(sha: Hash, w: World, w1: World, op: Op, script: seq<Choice>, i: nat)
    requires op.Callback? && Noted(w, w1, op) && i <= 2 && Undisturbed(script)
    requires (w.row.state.ReleasedToGreen? && op.decision) || (w.row.state.ApprovalRejected? && !op.decision)
    ensures var w' := Alone(sha, w1, op, BEGIN.(pc := Dispatch), script, i).0;
            var good := w.row.actor == Some(Relay(op.relayUser, op.event));
            Behind(w, w') == w
            && w'.callbacks == w.callbacks[op.event := CallbackRow(op.payloadHash, if good then Processed else Errored)]
  {
    var l := BEGIN.(pc := Ending(w.row.actor == Some(Relay(op.relayUser, op.event))));
    Forward(sha, w1, op, BEGIN.(pc := Dispatch), script, i, w1, l);
    OutcomeAlone(sha, w1, op, l, script, i + 1);
  }

  lemma {:induction false} ChoiceAlone(sha: Hash, w: World, w1: World, op: Op, script: seq<Choice>, i: nat)
    requires WorldOk(w) && op.Callback? && Noted(w, w1, op) && i <= 2 && Undisturbed(script)
    requires !(w.row.state.Approved? && op.decision)
    requires !(w.row.state.ReleasedToGreen? && op.decision) && !(w.row.state.ApprovalRejected? && !op.decision)
    ensures var w' := Alone(sha, w1, op, BEGIN.(pc := Dispatch), script, i).0;
            var good := Succeeds(sha, w, op.decision, script[i + 1].expired);
            && DecisionEnds(sha, w, Relay(op.relayUser, op.event), op.decision, script[i + 1].expired, Behind(w, w'))
            && w'.callbacks == w.callbacks[op.event := CallbackRow(op.payloadHash, if good then Processed else Errored)]
  {
    var actor := Relay(op.relayUser, op.event);
    Forward(sha, w1, op, BEGIN.(pc := Dispatch), script, i, w1, BEGIN.(pc := Deciding));
    var j, w', l' := DecisionAlone(sha, w1, op, actor, BEGIN.(pc := Deciding), script, i + 1);
    DecidedBehind(sha, w, w1, op, script[i + 1].expired, w');
    OutcomeAlone(sha, w', op, l', script, j);
    OutcomeSet(w, w1, op, w', l'.pc.ok);
  }

  lemma OutcomeSet(w: World, w1: World, op: Op, w': World, good: bool)
    requires op.Callback? && Noted(w, w1, op) && w'.callbacks == w1.callbacks
    ensures var s := SetOutcome(w', op.event, if good then Processed else Errored);
            && Behind(w, s) == Behind(w, w')
            && s.callbacks == w.callbacks[op.event := CallbackRow(op.payloadHash, if good then Processed else Errored)]
  {
  }

  lemma DecidedBehind(sha: Hash, w: World, w1: World, op: Op, expired: bool, w': World)
    requires op.Callback? && Noted(w, w1, op)
    requires DecisionEnds(sha, w1, Relay(op.relayUser, op.event), op.decision, expired, w')
    ensures DecisionEnds(sha, w, Relay(op.relayUser, op.event), op.decision, expired, Behind(w, w'))
    ensures w'.callbacks == w1.callbacks
    ensures Succeeds(sha, w, op.decision, expired) == Succeeds(sha, w1, op.decision, expired)
  {
  }

  lemma {:induction false} RetryAlone(sha: Hash, w: World, w1: World, op: Op, script: seq<Choice>, i: nat)
    requires op.Callback? && Noted(w, w1, op) && i <= 2 && Undisturbed(script)
    requires w.row.state.Approved? && op.decision
    ensures CallbackEnds(sha, w, op, script[i + 1].expired,
                         Alone(sha, w, Release, RELEASING, script[i + 1..], 0).0,
                         Alone(sha, w1, op, BEGIN.(pc := Dispatch), script, i).0)
  {
    Forward(sha, w1, op, BEGIN.(pc := Dispatch), script, i, w1, RELEASING);
    var j, w', l' := AttemptAlone(sha, w1, op, RELEASING, script, i + 1, w.callbacks);
    OutcomeAlone(sha, w', op, l', script, j);
    EndingStays(sha, Behind(w, w'), Release, l', script, j);
    AloneShifts(sha, w, Release, RELEASING, script, i + 1, i + 1);
    assert WithTable(w1, w.callbacks) == w;
  }

  /** The last statement of a callback. */
  lemma {:induction false} OutcomeAlone(sha: Hash, w: World, op: Op, l: Local, script: seq<Choice>, i: nat)
    requires op.Callback? && l.pc.Ending? && i < |script| && Calm(script)
    ensures Alone(sha, w, op, l, script, i).0 == SetOutcome(w, op.event, if l.pc.ok then Processed else Errored)
  {
    EndingIs(w, op, l);
    Forward(sha, w, op, l, script, i, SetOutcome(w, op.event, if l.pc.ok then Processed else Errored), l.(pc := Gone));
  }

  // ------------------------------------------------------------------------------------------
  // A callback in which one step raises
  // ------------------------------------------------------------------------------------------

  /** What is left to do for a callback that has failed. */
  ghost predicate Failed(w: World, op: Op, l: Local)
    requires op.Callback?
  {
    && op.event in w.callbacks
    && match l.pc
       case FailedMove => true
       case DropDir => true
       case Ending(ok) => !ok
       case Gone => w.callbacks[op.event].outcome.Errored?
       case _ => false
  }

  lemma RaisedFails(w: World, op: Op, l: Local)
    requires op.Callback? && op.event in w.callbacks && l.pc != Ending(false) && !l.pc.DropDir? && !l.pc.DropSource?
    requires InRelease(l.pc) || l.pc.Dispatch? || l.pc.Deciding? || l.pc.VerifyForApproval? || l.pc.Ending?
             || ((l.pc.Reading? || l.pc.Swapping?) && l.pc.m.fail == ToEnd(false))
    ensures Failed(w, op, Raised(op, l))
  {
  }

  lemma FailedStep(sha: Hash, w: World, op: Op, l: Local, c: Choice)
    requires op.Callback? && Failed(w, op, l) && !l.pc.Gone? && c.ok
    ensures var (w', l') := Act(sha, w, op, l, c); Failed(w', op, l') && w'.row == w.row && w'.log == w.log
  {
  }

  lemma {:induction false} FailedAlone(sha: Hash, w: World, op: Op, l: Local, script: seq<Choice>, i: nat)
    requires op.Callback? && Failed(w, op, l) && forall j :: i <= j < |script| ==> script[j].ok
    ensures var (w', l') := Alone(sha, w, op, l, script, i); Failed(w', op, l') && w'.row == w.row && w'.log == w.log
    decreases |script| - i
  {
    if i < |script| && !l.pc.Gone? {
      var (w1, l1) := Act(sha, w, op, l, script[i]);
      FailedStep(sha, w, op, l, script[i]);
      FailedAlone(sha, w1, op, l1, script, i + 1);
    }
  }

  /**
   A callback whose event is recorded and that meets an exception at any later step but the record of a failure:
   the transfer stays in the state in which the exception found it, and the event is recorded as failed, so that the
   relay's next delivery of it is handled again.
   */
  lemma {:induction false} CallbackFails(sha: Hash, w: World, op: Op, l: Local, script: seq<Choice>, i: nat)
    requires op.Callback? && op.event in w.callbacks && l.pc != Ending(false)
    requires InRelease(l.pc) || l.pc.Dispatch? || l.pc.Deciding? || l.pc.VerifyForApproval? || l.pc.Ending?
             || ((l.pc.Reading? || l.pc.Swapping?) && l.pc.m.fail == ToEnd(false))
    requires i < |script| && Raises(l, script[i]) && forall j :: i < j < |script| ==> script[j].ok
    ensures var (w', l') := Alone(sha, w, op, l, script, i);
            && w'.row == w.row && w'.log == w.log
            && (l'.pc.Gone? ==> op.event in w'.callbacks && w'.callbacks[op.event].outcome.Errored?)
  {
    RaisedFails(w, op, l);
    assert Alone(sha, w, op, l, script, i) == Alone(sha, w, op, Raised(op, l), script, i + 1);
    FailedAlone(sha, w, op, Raised(op, l), script, i + 1);
  }
}
