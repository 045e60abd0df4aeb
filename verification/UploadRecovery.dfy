/**
 Crash, recovery and retry of one upload session, as runs of the system; and what a target directory
 left behind by a failed attempt blocks, and for how long.
 */
module UploadRecovery {
  import opened Basics
  import opened PartPlan
  import opened Upload

  lemma {:induction false} RunAppend(sha: Hash, s: System, first: seq<Event>, second: seq<Event>)
    ensures Run(sha, s, first + second) == Run(sha, Run(sha, s, first), second)
    decreases |first|
  {
    if first == [] {
      assert first + second == second;
    } else {
      assert (first + second)[1..] == first[1..] + second;
      RunAppend(sha, Next(sha, s, first[0]), first[1..], second);
    }
  }

  function Boots(n: nat): (events: seq<Event>)
    ensures |events| == n
  {
    if n == 0 then [] else [Boot] + Boots(n - 1)
  }

  lemma {:induction false} BootsRun(sha: Hash, s: System, n: nat)
    ensures var (w, mode) := Booted(sha, s.w, s.mode, n); Run(sha, s, Boots(n)) == s.(w := w, mode := mode)
    decreases n
  {
    if n > 0 {
      assert Boots(n)[1..] == Boots(n - 1);
      if s.mode.Serving? {
        assert Next(sha, s, Boot) == s;
        BootsRun(sha, s, n - 1);
        assert Booted(sha, s.w, s.mode, n - 1) == (s.w, s.mode);
      } else {
        BootsRun(sha, Next(sha, s, Boot), n - 1);
      }
    }
  }

  /** A crash and the whole startup sequence. */
  function Restarted(): seq<Event> {
    [Crash, Boot] + Boots(7)
  }

  lemma RestartRuns(sha: Hash, s: System)
    requires HardenAccepts(sha, DropStale(s.w))
    ensures var (w, mode) := Booted(sha, DropStale(s.w), Recovering, 7);
            Run(sha, s, Restarted()) == s.(w := w, mode := mode, threads := map[], table := None)
  {
    var s1 := s.(threads := map[], table := None, mode := Hardening);
    var s2 := s1.(w := DropStale(s.w), mode := Recovering);
    assert Next(sha, s, Crash) == s1 && Next(sha, s1, Boot) == s2;
    RunAppend(sha, s, [Crash, Boot], Boots(7));
    assert [Crash, Boot][1..] == [Boot];
    assert Run(sha, s1, [Boot]) == Run(sha, s2, [Boot][1..]);
    BootsRun(sha, s2, 7);
  }

  /** A request on an idle session takes a new lock and enters the critical section. */
  function Request(t: ThreadId, op: Op, script: seq<bool>, uuid: Id): seq<Event> {
    [Spawn(t, op), Step(t, false, uuid), Step(t, false, uuid)] + Steps(t, script, 0, uuid)
  }

  ghost predicate Idle(s: System) {
    s.mode.Serving? && forall u :: u in s.threads ==> s.threads[u].pc.Gone?
  }

  function LockFor(s: System): LockId {
    if s.table.Some? then s.table.value else s.nextLock
  }

  lemma RequestLocks(sha: Hash, s: System, t: ThreadId, op: Op, uuid: Id, s1: System, s2: System, s3: System)
    requires Idle(s) && t !in s.threads && Spawnable(s.w, op)
    requires s1 == s.(threads := s.threads[t := Thread(op, Start, 0)])
    requires s2 == s.(threads := s.threads[t := Thread(op, Waiting, LockFor(s))], table := Some(LockFor(s)),
                      nextLock := if s.table.Some? then s.nextLock else s.nextLock + 1)
    requires s3 == s2.(threads := s2.threads[t := Thread(op, Entered, LockFor(s))])
    ensures Next(sha, s, Spawn(t, op)) == s1
    ensures Next(sha, s1, Step(t, false, uuid)) == s2 && Next(sha, s2, Step(t, false, uuid)) == s3
  {
    assert s1.threads[t := Thread(op, Waiting, LockFor(s))] == s2.threads;
    assert !LockTaken(s2, t, LockFor(s));
  }

  lemma RequestEnters(sha: Hash, s: System, t: ThreadId, op: Op, uuid: Id)
    requires Idle(s) && t !in s.threads && Spawnable(s.w, op)
    ensures Run(sha, s, [Spawn(t, op), Step(t, false, uuid), Step(t, false, uuid)]) ==
            s.(threads := s.threads[t := Thread(op, Entered, LockFor(s))], table := Some(LockFor(s)),
               nextLock := if s.table.Some? then s.nextLock else s.nextLock + 1)
  {
    var s1 := s.(threads := s.threads[t := Thread(op, Start, 0)]);
    var s2 := s.(threads := s.threads[t := Thread(op, Waiting, LockFor(s))], table := Some(LockFor(s)),
                 nextLock := if s.table.Some? then s.nextLock else s.nextLock + 1);
    var s3 := s2.(threads := s2.threads[t := Thread(op, Entered, LockFor(s))]);
    var step := Step(t, false, uuid);
    RequestLocks(sha, s, t, op, uuid, s1, s2, s3);
    assert s3.threads == s.threads[t := Thread(op, Entered, LockFor(s))];
    assert [Spawn(t, op), step, step][1..] == [step, step] && [step, step][1..] == [step];
    assert Run(sha, s, [Spawn(t, op), step, step]) == Run(sha, s1, [step, step]) == Run(sha, s2, [step]);
    assert Run(sha, s2, [step]) == Run(sha, s3, [step][1..]);
  }

  lemma {:induction false} RequestRuns(sha: Hash, s: System, t: ThreadId, op: Op, script: seq<bool>, uuid: Id)
    requires Inv(sha, s) && Idle(s) && t !in s.threads && Spawnable(s.w, op)
    ensures var s' := Run(sha, s, Request(t, op, script, uuid));
            var (w, pc) := Alone(sha, s.w, op, Entered, script, 0, uuid);
            s'.w == w && s'.threads == s.threads[t := Thread(op, pc, LockFor(s))] && s'.mode.Serving?
    ensures Inv(sha, Run(sha, s, Request(t, op, script, uuid)))
  {
    RunKeepsInv(sha, s, Request(t, op, script, uuid));
    RequestRunsAlone(sha, s, t, op, script, uuid);
  }

  lemma {:induction false} RequestRunsAlone(sha: Hash, s: System, t: ThreadId, op: Op, script: seq<bool>, uuid: Id)
    requires Idle(s) && t !in s.threads && Spawnable(s.w, op)
    ensures var s' := Run(sha, s, Request(t, op, script, uuid));
            var (w, pc) := Alone(sha, s.w, op, Entered, script, 0, uuid);
            s'.w == w && s'.threads == s.threads[t := Thread(op, pc, LockFor(s))] && s'.mode.Serving?
  {
    var enter := [Spawn(t, op), Step(t, false, uuid), Step(t, false, uuid)];
    RunAppend(sha, s, enter, Steps(t, script, 0, uuid));
    RequestEnters(sha, s, t, op, uuid);
    AloneIsRun(sha, Run(sha, s, enter), t, script, 0, uuid);
    var pc := Alone(sha, s.w, op, Entered, script, 0, uuid).1;
    assert s.threads[t := Thread(op, Entered, LockFor(s))][t := Thread(op, pc, LockFor(s))]
        == s.threads[t := Thread(op, pc, LockFor(s))];
  }

  // ------------------------------------------------------------------------------------------
  // The end of a session
  // ------------------------------------------------------------------------------------------

  /** Nothing of the session is left but its own row and its object. */
  ghost predicate SweptUp(s: System) {
    && !s.w.staged && s.w.files == map[] && s.w.assembled.None? && s.w.parts == map[]
    && s.table.None?
  }

  /** How far the thread that has ended the session has come with the clean-up. */
  ghost predicate Clearing(s: System, pc: Pc) {
    s.w.session.phase.Terminal() ==>
      match pc
      case Wiping => true
      case Purging => !s.w.staged && s.w.files == map[] && s.w.assembled.None?
      case Forgetting => !s.w.staged && s.w.files == map[] && s.w.assembled.None? && s.w.parts == map[]
      case Leaving => SweptUp(s)
      case Gone => SweptUp(s)
      case _ => false
  }

  lemma ActClears(sha: Hash, s: System, t: ThreadId, uuid: Id)
    requires t in s.threads && Inside(s.threads[t].pc) && Clearing(s, s.threads[t].pc)
    ensures var s' := StepThread(sha, s, t, false, uuid); Clearing(s', s'.threads[t].pc)
  {
  }

  lemma {:induction false} StepsClear(sha: Hash, s: System, t: ThreadId, script: seq<bool>, i: nat, uuid: Id)
    requires t in s.threads && (Inside(s.threads[t].pc) || s.threads[t].pc.Gone?) && Clearing(s, s.threads[t].pc)
    requires forall j :: 0 <= j < |script| ==> !script[j]
    ensures var s' := Run(sha, s, Steps(t, script, i, uuid));
            t in s'.threads && Clearing(s', s'.threads[t].pc)
    decreases |script| - i
  {
    if i < |script| {
      assert Steps(t, script, i, uuid)[1..] == Steps(t, script, i + 1, uuid);
      StepAlone(sha, s, t, false, uuid);
      if Inside(s.threads[t].pc) {
        ActClears(sha, s, t, uuid);
      }
      StepsClear(sha, Next(sha, s, Step(t, script[i], uuid)), t, script, i + 1, uuid);
    }
  }

  /**
   An undisturbed request that ends the session, by completing, cancelling or expiring it, leaves no staging tree,
   no part file, no part row and no entry in the lock table.
   */
  lemma {:induction false} EndedIsCleared(sha: Hash, s: System, t: ThreadId, op: Op, script: seq<bool>, uuid: Id)
    requires Idle(s) && t !in s.threads && Spawnable(s.w, op) && !s.w.session.phase.Terminal()
    requires forall j :: 0 <= j < |script| ==> !script[j]
    ensures var s' := Run(sha, s, Request(t, op, script, uuid));
            && t in s'.threads
            && (s'.threads[t].pc.Gone? && s'.w.session.phase.Terminal() ==>
                  && !s'.w.staged && s'.w.files == map[] && s'.w.assembled.None? && s'.w.parts == map[]
                  && s'.table.None?)
  {
    var enter := [Spawn(t, op), Step(t, false, uuid), Step(t, false, uuid)];
    RunAppend(sha, s, enter, Steps(t, script, 0, uuid));
    RequestEnters(sha, s, t, op, uuid);
    StepsClear(sha, Run(sha, s, enter), t, script, 0, uuid);
  }

  /**
   A completion in the system, on a session nobody else is working on. All parts received, matching bytes and
   nothing left behind, or the object registered already by an earlier attempt: it ends completed with that object
   and its bytes, and with the staging tree, the part rows and the session's lock gone.
   */
  lemma {:induction false} CompletionClears(sha: Hash, s: System, t: ThreadId, script: seq<bool>, uuid: Id)
    requires Inv(sha, s) && Idle(s) && t !in s.threads && !s.w.session.phase.Terminal() && FreshId(s.w, uuid)
    requires |script| >= s.w.session.Count() + 14 && forall j :: 0 <= j < |script| ==> !script[j]
    requires var id := Reserved(s.w, uuid);
             id in s.w.records || Ready(sha, s.w, id)
    ensures var s', id := Run(sha, s, Request(t, Op.Complete, script, uuid)), Reserved(s.w, uuid);
            && s'.w.session == s.w.session.(phase := Completed, objectId := Some(id))
            && (if id in s.w.records then s'.w.records == s.w.records && s'.w.payloads == s.w.payloads
                else Delivered(sha, s'.w, id, Joined(s.w.files, s.w.session.Count())))
            && !s'.w.staged && s'.w.files == map[] && s'.w.assembled.None? && s'.w.parts == map[]
            && s'.table.None?
  {
    var (w, pc) := Alone(sha, s.w, Op.Complete, Entered, script, 0, uuid);
    RequestRunsAlone(sha, s, t, Op.Complete, script, uuid);
    EndedIsCleared(sha, s, t, Op.Complete, script, uuid);
    CompletesAlone(sha, s.w, script, uuid);
    assert Run(sha, s, Request(t, Op.Complete, script, uuid)).threads[t].pc == pc;
  }

  lemma {:induction false} CompletesAlone(sha: Hash, w: World, script: seq<bool>, uuid: Id)
    requires !w.session.phase.Terminal() && FreshId(w, uuid)
    requires |script| >= w.session.Count() + 14 && forall j :: 0 <= j < |script| ==> !script[j]
    requires Reserved(w, uuid) in w.records || Ready(sha, w, Reserved(w, uuid))
    ensures var (w', pc') := Alone(sha, w, Op.Complete, Entered, script, 0, uuid);
            var id := Reserved(w, uuid);
            && pc'.Gone? && w'.session == w.session.(phase := Completed, objectId := Some(id))
            && (if id in w.records then w'.records == w.records && w'.payloads == w.payloads
                else Delivered(sha, w', id, Joined(w.files, w.session.Count())))
  {
    if Reserved(w, uuid) in w.records {
      RecoveredCompletes(sha, w, script, uuid);
    } else {
      PresentIsReceived(sha, w);
      RetryCompletes(sha, w, script, uuid);
    }
  }

  // ------------------------------------------------------------------------------------------
  // Crash, recovery, retry
  // ------------------------------------------------------------------------------------------

  ghost predicate AnyTorn(sha: Hash, w: World) {
    exists n :: TornPart(sha, w, n)
  }

  lemma CompletingIsAccepted(sha: Hash, s: System)
    requires Inv(sha, s) && s.mode.Serving? && s.w.session.phase.Completing? && !AnyTorn(sha, s.w)
    ensures HardenAccepts(sha, DropStale(s.w)) && DropStale(s.w) == s.w
  {
    forall t ensures !Torn(sha, s, t) {
      if t in s.threads {
        assert ThreadOk(sha, s.w, s.threads[t].op, s.threads[t].pc);
      }
    }
    UntornIsAccepted(sha, s);
  }

  predicate NoCrash(events: seq<Event>) {
    forall i :: 0 <= i < |events| ==> !events[i].Crash?
  }

  /** A refused startup stays refused: nobody serves requests. */
  lemma {:induction false} RefusedStays(sha: Hash, s: System, events: seq<Event>)
    requires s.mode.Refused? && s.threads == map[] && NoCrash(events)
    ensures Run(sha, s, events).mode.Refused?
    decreases |events|
  {
    if events != [] {
      assert NoCrash(events[1..]);
      RefusedStays(sha, Next(sha, s, events[0]), events[1..]);
    }
  }

  lemma {:induction false} BootsCalm(n: nat)
    ensures NoCrash(Boots(n))
  {
    if n > 0 {
      BootsCalm(n - 1);
    }
  }

  lemma {:induction false} StepsCalm(t: ThreadId, script: seq<bool>, i: nat, uuid: Id)
    ensures NoCrash(Steps(t, script, i, uuid))
    decreases |script| - i
  {
    if i < |script| {
      StepsCalm(t, script, i + 1, uuid);
    }
  }

  /** A session with a torn part is not served again: the startup is refused, and so is the retry. */
  lemma {:induction false} TornIsNotRetried(sha: Hash, s: System, t: ThreadId, op: Op, script: seq<bool>, uuid: Id)
    requires Inv(sha, s) && s.mode.Serving? && AnyTorn(sha, s.w)
    ensures Run(sha, s, Restarted() + Request(t, op, script, uuid)).mode.Refused?
  {
    var rest := Boots(7) + Request(t, op, script, uuid);
    var s2 := Run(sha, s, [Crash, Boot]);
    assert Restarted() + Request(t, op, script, uuid) == [Crash, Boot] + rest;
    RunAppend(sha, s, [Crash, Boot], rest);
    CrashAndBoot(sha, s);
    StartupRefusedIffTorn(sha, s);
    BootsCalm(7);
    StepsCalm(t, script, 0, uuid);
    RefusedStays(sha, s2, rest);
  }

  /** What an undisturbed startup makes of a completing session. */
  function Settled(w: World): World
    requires w.session.objectId.Some?
  {
    var id := w.session.objectId.value;
    if id in w.records then
      SetPhase(w, Completed).(staged := false, files := map[], assembled := None, parts := map[])
    else SetPhase(w, Uploading).(payloads := w.payloads - {id}, assembled := None)
  }

  lemma CompletingBooted(sha: Hash, w: World)
    requires WorldOk(sha, w) && w.session.phase.Completing?
    ensures Booted(sha, w, Recovering, 7) == (Settled(w), Serving) && WorldOk(sha, Settled(w))
  {
    var id := w.session.objectId.value;
    BootedFollows(sha, w, Recovering, 7);
    if id in w.records {
      assert Booted(sha, w, Recovering, 7) == Booted(sha, w, Binding(id), 6);
      BindingBooted(sha, w, id);
      assert SetPhase(w, Completed).session == w.session.(phase := Completed, objectId := Some(id));
    } else {
      assert Booted(sha, w, Recovering, 7) == Booted(sha, w, ClearingTarget(id), 6);
      ResetBooted(sha, w, id);
    }
  }

  lemma RestartOfCompleting(sha: Hash, s: System)
    requires Inv(sha, s) && s.mode.Serving? && s.w.session.phase.Completing? && !AnyTorn(sha, s.w)
    ensures Run(sha, s, Restarted()) == s.(w := Settled(s.w), mode := Serving, threads := map[], table := None)
    ensures Inv(sha, Run(sha, s, Restarted()))
  {
    CompletingIsAccepted(sha, s);
    RestartRuns(sha, s);
    CompletingBooted(sha, s.w);
    RunKeepsInv(sha, s, Restarted());
  }

  lemma SettledIsReceived(sha: Hash, w: World)
    requires WorldOk(sha, w) && w.session.phase.Completing? && w.session.objectId.value !in w.records
    ensures AllReceived(Settled(w))
  {
    CompletingBooted(sha, w);
    assert AllPresent(w);
    PresentIsReceived(sha, Settled(w));
  }

  lemma {:induction false} CompletedStays(sha: Hash, w: World, script: seq<bool>, uuid: Id)
    requires w.session.phase.Completed? && w.session.objectId.Some? && |script| >= 2
    ensures Alone(sha, w, Op.Complete, Entered, script, 0, uuid).0 == w
  {
    assert Alone(sha, w, Op.Complete, Entered, script, 0, uuid) == Alone(sha, w, Op.Complete, Leaving, script, 1, uuid);
    assert Alone(sha, w, Op.Complete, Leaving, script, 1, uuid) == Alone(sha, w, Op.Complete, Gone, script, 2, uuid);
  }

  /** The session registers `bytes` under its planned identifier, or is open again with nothing registered. */
  ghost predicate Retried(sha: Hash, w: World, w': World, bytes: Bytes)
    requires w.session.objectId.Some?
  {
    var id := w.session.objectId.value;
    && w'.session.objectId == Some(id)
    && if Matches(sha, w.session, bytes) then
         && w'.session.phase.Completed?
         && w'.records == w.records[id := Record(w.session.total, sha(bytes), true)]
         && id in w'.payloads && w'.payloads[id] == Some(bytes)
       else w'.session.phase.Uploading? && w'.records == w.records
  }

  /**
   A crash at any step of a completion, the restart, and one undisturbed retry. A session whose object was
   registered is completed with it; otherwise the retry registers the assembled parts under the same planned
   identifier, unless they have another digest than the client announced. Only when a part is torn, by a commit
   that raised, is the startup refused.
   */
  lemma {:induction false} CrashRecoverRetry(sha: Hash, s: System, t: ThreadId, script: seq<bool>, uuid: Id)
    requires Inv(sha, s) && s.mode.Serving? && s.w.session.phase.Completing?
    requires FreshId(Run(sha, s, Restarted()).w, uuid)
    requires |script| >= s.w.session.Count() + 14 && forall j :: 0 <= j < |script| ==> !script[j]
    ensures var w, w' := s.w, Run(sha, s, Restarted() + Request(t, Op.Complete, script, uuid)).w;
            if AnyTorn(sha, w) then
              Run(sha, s, Restarted() + Request(t, Op.Complete, script, uuid)).mode.Refused?
            else if w.session.objectId.value in w.records then
              w'.session == w.session.(phase := Completed) && w'.records == w.records && w'.payloads == w.payloads
            else Retried(sha, w, w', Joined(w.files, w.session.Count()))
  {
    if AnyTorn(sha, s.w) {
      TornIsNotRetried(sha, s, t, Op.Complete, script, uuid);
      return;
    }
    var s1 := Run(sha, s, Restarted());
    RestartOfCompleting(sha, s);
    RunAppend(sha, s, Restarted(), Request(t, Op.Complete, script, uuid));
    RequestRuns(sha, s1, t, Op.Complete, script, uuid);
    assert s1.threads == map[] && s1.mode.Serving?;
    if s.w.session.objectId.value in s.w.records {
      CompletedStays(sha, Settled(s.w), script, uuid);
    } else {
      SettledIsReceived(sha, s.w);
      RetryAfterRecovery(sha, Settled(s.w), script, uuid);
    }
  }

  lemma {:induction false} RetryAfterRecovery(sha: Hash, w: World, script: seq<bool>, uuid: Id)
    requires WorldOk(sha, w) && w.session.phase.Uploading? && AllReceived(w) && FreshId(w, uuid)
    requires w.session.objectId.Some? && w.session.objectId.value !in w.records
    requires w.assembled.None? && w.session.objectId.value !in w.payloads
    requires |script| >= w.session.Count() + 14 && forall j :: 0 <= j < |script| ==> !script[j]
    ensures var w' := Alone(sha, w, Op.Complete, Entered, script, 0, uuid).0;
            Retried(sha, w, w', Joined(w.files, w.session.Count()))
  {
    var id := w.session.objectId.value;
    var numbers := Ordered(w.parts.Keys, w.session.Count());
    var w1 := SetPhase(w, Completing);
    AllReceivedIsComplete(sha, w);
    assert w1 == w.(session := w.session.(phase := Completing, objectId := Some(id)));
    assert Alone(sha, w, Op.Complete, Entered, script, 0, uuid)
        == Alone(sha, w, Op.Complete, Reserving(w.session.objectId, numbers), script, 1, uuid);
    assert Alone(sha, w, Op.Complete, Reserving(w.session.objectId, numbers), script, 1, uuid)
        == Alone(sha, w1, Op.Complete, Opening(id, numbers), script, 2, uuid);
    AssembleAlone(sha, w1, id, numbers, script, 2, uuid);
  }

  // ------------------------------------------------------------------------------------------
  // A target directory left behind
  // ------------------------------------------------------------------------------------------

  /**
   The planned object is not registered, its target directory exists, and no thread is past the step
   that would create it.
   */
  ghost predicate Blocked(s: System) {
    && s.w.session.objectId.Some? && s.w.session.objectId.value in s.w.payloads
    && s.w.session.objectId.value !in s.w.records
    && forall t :: t in s.threads ==>
         var pc := s.threads[t].pc; !pc.Moving? && !pc.Inserting? && !pc.Undoing? && !pc.Finalizing?
  }

  /** The run passes through the recovery step that removes the target directory of a completing session. */
  ghost predicate Cleared(sha: Hash, s: System, events: seq<Event>)
    decreases |events|
  {
    events != [] && ((events[0].Boot? && s.mode.ClearingTarget?) || Cleared(sha, Next(sha, s, events[0]), events[1..]))
  }

  lemma ActBlocked(sha: Hash, w: World, op: Op, pc: Pc, fault: bool, uuid: Id)
    requires WorldOk(sha, w) && ThreadOk(sha, w, op, pc) && Inside(pc)
    requires w.session.objectId.Some? && w.session.objectId.value in w.payloads
    requires w.session.objectId.value !in w.records
    requires !pc.Moving? && !pc.Inserting? && !pc.Undoing? && !pc.Finalizing?
    ensures var (w', pc') := Act(sha, w, op, pc, fault, uuid);
            && w'.session.objectId == w.session.objectId
            && w'.session.objectId.value in w'.payloads && w'.session.objectId.value !in w'.records
            && !pc'.Moving? && !pc'.Inserting? && !pc'.Undoing? && !pc'.Finalizing?
  {
  }

  lemma BootBlocked(sha: Hash, w: World, mode: Mode)
    requires WorldOk(sha, w) && ModeOk(w, mode) && !mode.ClearingTarget?
    requires w.session.objectId.Some? && w.session.objectId.value in w.payloads
    requires w.session.objectId.value !in w.records
    ensures var (w', _) := BootStep(sha, w, mode);
            && w'.session.objectId == w.session.objectId
            && w'.session.objectId.value in w'.payloads && w'.session.objectId.value !in w'.records
  {
  }

  lemma NextBlocked(sha: Hash, s: System, e: Event)
    requires Inv(sha, s) && Blocked(s) && !(e.Boot? && s.mode.ClearingTarget?)
    ensures Blocked(Next(sha, s, e))
  {
    match e
    case Step(t, fault, uuid) =>
      if t in s.threads && Inside(s.threads[t].pc) {
        ActBlocked(sha, s.w, s.threads[t].op, s.threads[t].pc, fault, uuid);
      }
    case Boot => BootBlocked(sha, s.w, s.mode);
    case _ =>
  }

  /**
   While a target directory is left behind, no request and no number of retries registers the object: it
   stays unregistered until a startup finds the session completing and removes the directory.
   */
  lemma {:induction false} OrphanDirectoryBlocks(sha: Hash, s: System, events: seq<Event>)
    requires Inv(sha, s) && Blocked(s) && !Cleared(sha, s, events)
    ensures Blocked(Run(sha, s, events))
    ensures !Run(sha, s, events).w.session.phase.Completed?
    decreases |events|
  {
    if events == [] {
      assert WorldOk(sha, s.w);
    } else {
      NextBlocked(sha, s, events[0]);
      NextKeepsInv(sha, s, events[0]);
      OrphanDirectoryBlocks(sha, Next(sha, s, events[0]), events[1..]);
    }
  }

  /** A retry that is cut right after it reserved the identifier, the restart, and one more retry. */
  function CutAndRetried(t: ThreadId, u: ThreadId, script: seq<bool>, uuid: Id): seq<Event> {
    Request(t, Op.Complete, [false, false], uuid) + (Restarted() + Request(u, Op.Complete, script, uuid))
  }

  /**
   A crash that cuts a later attempt clears the directory: the attempt after that restart registers the
   object exactly when its bytes match what the client announced, unless a torn part prevents the restart.
   */
  lemma {:induction false} CrashClearsOrphan(sha: Hash, s: System, t: ThreadId, u: ThreadId, script: seq<bool>,
                                             uuid: Id)
    requires Inv(sha, s) && Idle(s) && t !in s.threads && s.w.session.phase.Uploading? && AllReceived(s.w)
    requires Blocked(s) && FreshId(s.w, uuid)
    requires |script| >= s.w.session.Count() + 14 && forall j :: 0 <= j < |script| ==> !script[j]
    ensures var s' := Run(sha, s, CutAndRetried(t, u, script, uuid));
            if AnyTorn(sha, s.w) then s'.mode.Refused?
            else Retried(sha, s.w, s'.w, Joined(s.w.files, s.w.session.Count()))
  {
    var cut := Request(t, Op.Complete, [false, false], uuid);
    RunAppend(sha, s, cut, Restarted() + Request(u, Op.Complete, script, uuid));
    RequestRuns(sha, s, t, Op.Complete, [false, false], uuid);
    CutAlone(sha, s.w, uuid);
    CutTears(sha, s.w);
    if AnyTorn(sha, s.w) {
      TornIsNotRetried(sha, Run(sha, s, cut), u, Op.Complete, script, uuid);
      return;
    }
    RestartOfCompleting(sha, Run(sha, s, cut));
    CrashRecoverRetry(sha, Run(sha, s, cut), u, script, uuid);
  }

  lemma CutTears(sha: Hash, w: World)
    requires w.session.phase.Uploading?
    ensures AnyTorn(sha, SetPhase(w, Completing)) <==> AnyTorn(sha, w)
  {
    forall n ensures TornPart(sha, SetPhase(w, Completing), n) <==> TornPart(sha, w, n) {
    }
  }

  lemma CutAlone(sha: Hash, w: World, uuid: Id)
    requires w.session.phase.Uploading? && AllReceived(w)
    requires w.session.objectId.Some? && w.session.objectId.value !in w.records
    ensures Alone(sha, w, Op.Complete, Entered, [false, false], 0, uuid).0 == SetPhase(w, Completing)
  {
    var id, numbers, script := w.session.objectId.value, Ordered(w.parts.Keys, w.session.Count()), [false, false];
    assert Enter(w, Op.Complete, false) == Reserving(Some(id), numbers);
    assert Alone(sha, w, Op.Complete, Entered, script, 0, uuid)
        == Alone(sha, w, Op.Complete, Reserving(Some(id), numbers), script, 1, uuid);
    assert w.(session := w.session.(phase := Completing, objectId := Some(id))) == SetPhase(w, Completing);
    assert Alone(sha, w, Op.Complete, Reserving(Some(id), numbers), script, 1, uuid)
        == Alone(sha, SetPhase(w, Completing), Op.Complete, Opening(id, numbers), script, 2, uuid);
  }

  // ------------------------------------------------------------------------------------------
  // Both windows occur: runs from a created session
  // ------------------------------------------------------------------------------------------

  /** The session of a one-part file, and what its rows and files are once the part is received. */
  function OnePart(data: Bytes): System
    requires |data| > 0
  {
    Created(|data|, |data|, None)
  }

  function Staged(sha: Hash, data: Bytes): World
    requires |data| > 0
  {
    OnePart(data).w.(files := map[1 := data], parts := map[1 := Part(|data|, sha(data))])
  }

  function Quiet(n: nat): (script: seq<bool>)
    ensures |script| == n && forall j :: 0 <= j < n ==> !script[j]
  {
    seq(n, _ => false)
  }

  /** An upload whose commit raises. */
  function Uncommitted(): (script: seq<bool>) {
    [false, false, true, false]
  }

  lemma PutAlone(sha: Hash, w: World, data: Bytes, uuid: Id)
    requires w.session.phase.Uploading? && w.staged && w.loose == {}
    ensures Alone(sha, w, Put(1, data), Entered, Quiet(4), 0, uuid) ==
              (w.(files := w.files[1 := data], parts := w.parts[1 := Part(|data|, sha(data))]), Gone)
    ensures Alone(sha, w, Put(1, data), Entered, Quiet(2), 0, uuid) == (w.(files := w.files[1 := data]), Committing)
  {
    var op, w1 := Put(1, data), w.(files := w.files[1 := data]);
    var w2 := w1.(parts := w.parts[1 := Part(|data|, sha(data))]);
    var q, r := Quiet(4), Quiet(2);
    assert w.loose - {1} == {};
    assert Alone(sha, w, op, Entered, q, 0, uuid) == Alone(sha, w, op, Renaming, q, 1, uuid)
        == Alone(sha, w1, op, Committing, q, 2, uuid) == Alone(sha, w2, op, Leaving, q, 3, uuid)
        == Alone(sha, w2, op, Gone, q, 4, uuid);
    assert Alone(sha, w, op, Entered, r, 0, uuid) == Alone(sha, w, op, Renaming, r, 1, uuid)
        == Alone(sha, w1, op, Committing, r, 2, uuid);
  }

  lemma UncommittedAlone(sha: Hash, w: World, data: Bytes, uuid: Id)
    requires w.session.phase.Uploading? && w.staged && w.loose == {}
    ensures Alone(sha, w, Put(1, data), Entered, Uncommitted(), 0, uuid) ==
            (w.(files := w.files[1 := data], loose := {1}), Gone)
  {
    var op, q, w1 := Put(1, data), Uncommitted(), w.(files := w.files[1 := data]);
    var w2 := w1.(loose := {1});
    assert w.loose - {1} == {} && {} + {1} == {1};
    assert Alone(sha, w, op, Entered, q, 0, uuid) == Alone(sha, w, op, Renaming, q, 1, uuid)
        == Alone(sha, w1, op, Committing, q, 2, uuid) == Alone(sha, w2, op, Leaving, q, 3, uuid)
        == Alone(sha, w2, op, Gone, q, 4, uuid);
  }

  lemma WholeIsPlanned(data: Bytes)
    requires |data| > 0
    ensures PlannedPart(OnePart(data).w.session, 1, |data|)
  {
    assert PartCount(|data|, |data|) == 1 && PlannedSize(|data|, |data|, 1) == |data|;
  }

  lemma OnePartPut(sha: Hash, data: Bytes, uuid: Id)
    requires |data| > 0
    ensures var s := Run(sha, OnePart(data), Request(0, Put(1, data), Quiet(4), uuid));
            Inv(sha, s) && Idle(s) && s.threads.Keys == {0} && s.w == Staged(sha, data)
  {
    var s := OnePart(data);
    CreatedOk(sha, |data|, |data|, None);
    WholeIsPlanned(data);
    RequestRuns(sha, s, 0, Put(1, data), Quiet(4), uuid);
    PutAlone(sha, s.w, data, uuid);
    var s1 := Run(sha, s, Request(0, Put(1, data), Quiet(4), uuid));
    assert s1.threads == map[][0 := Thread(Put(1, data), Gone, LockFor(s))];
  }

  /** The part again, with other bytes of the same length. */
  function PutTwice(data: Bytes, other: Bytes, script: seq<bool>, uuid: Id): seq<Event> {
    Request(0, Put(1, data), Quiet(4), uuid) + Request(1, Put(1, other), script, uuid)
  }

  lemma {:induction false} SecondPut(sha: Hash, data: Bytes, other: Bytes, script: seq<bool>, uuid: Id)
    requires |data| == |other| > 0
    ensures var s' := Run(sha, OnePart(data), PutTwice(data, other, script, uuid));
            var (w, pc) := Alone(sha, Staged(sha, data), Put(1, other), Entered, script, 0, uuid);
            && Inv(sha, s') && s'.w == w && s'.mode.Serving? && s'.threads.Keys == {0, 1}
            && s'.threads[0].pc.Gone? && s'.threads[1].op == Put(1, other) && s'.threads[1].pc == pc
  {
    var s := OnePart(data);
    var s1 := Run(sha, s, Request(0, Put(1, data), Quiet(4), uuid));
    OnePartPut(sha, data, uuid);
    RunAppend(sha, s, Request(0, Put(1, data), Quiet(4), uuid), Request(1, Put(1, other), script, uuid));
    WholeIsPlanned(data);
    RequestRuns(sha, s1, 1, Put(1, other), script, uuid);
  }

  /** The startup refusal happens: a crash between the rename and the commit of a second upload of a part. */
  lemma TornIsReachable(sha: Hash, data: Bytes, other: Bytes, uuid: Id)
    requires |data| == |other| > 0 && sha(data) != sha(other)
    ensures Run(sha, OnePart(data), PutTwice(data, other, Quiet(2), uuid) + [Crash, Boot]).mode.Refused?
  {
    RunAppend(sha, OnePart(data), PutTwice(data, other, Quiet(2), uuid), [Crash, Boot]);
    TornAfterPut(sha, data, other, uuid);
    RefusedAfterTorn(sha, Run(sha, OnePart(data), PutTwice(data, other, Quiet(2), uuid)), 1);
  }

  lemma TornAfterPut(sha: Hash, data: Bytes, other: Bytes, uuid: Id)
    requires |data| == |other| > 0 && sha(data) != sha(other)
    ensures var s := Run(sha, OnePart(data), PutTwice(data, other, Quiet(2), uuid)); Inv(sha, s) && Torn(sha, s, 1)
  {
    SecondPut(sha, data, other, Quiet(2), uuid);
    PutAlone(sha, Staged(sha, data), other, uuid);
  }

  lemma RefusedAfterTorn(sha: Hash, s: System, t: ThreadId)
    requires Inv(sha, s) && Torn(sha, s, t)
    ensures Run(sha, s, [Crash, Boot]).mode.Refused?
  {
    TornIsRefused(sha, s, t);
    CrashAndBoot(sha, s);
  }

  /**
   So does a refusal without any interrupted upload: the commit of the second upload raises, the request ends
   with an error, and the service refuses to start after the next crash.
   */
  lemma LooseIsReachable(sha: Hash, data: Bytes, other: Bytes, uuid: Id)
    requires |data| == |other| > 0 && sha(data) != sha(other)
    ensures var s := Run(sha, OnePart(data), PutTwice(data, other, Uncommitted(), uuid));
            && Idle(s) && s.w.session.phase.Uploading? && TornPart(sha, s.w, 1)
            && Run(sha, s, [Crash, Boot]).mode.Refused?
  {
    LooseAfterPut(sha, data, other, uuid);
    LooseIsRefused(sha, data, other);
    CrashAndBoot(sha, Run(sha, OnePart(data), PutTwice(data, other, Uncommitted(), uuid)));
  }

  lemma LooseAfterPut(sha: Hash, data: Bytes, other: Bytes, uuid: Id)
    requires |data| == |other| > 0
    ensures var s := Run(sha, OnePart(data), PutTwice(data, other, Uncommitted(), uuid));
            Idle(s) && s.w == Staged(sha, data).(files := map[1 := data][1 := other], loose := {1})
  {
    SecondPut(sha, data, other, Uncommitted(), uuid);
    UncommittedAlone(sha, Staged(sha, data), other, uuid);
  }

  lemma LooseIsRefused(sha: Hash, data: Bytes, other: Bytes)
    requires |data| > 0 && sha(data) != sha(other)
    ensures var w := Staged(sha, data).(files := map[1 := data][1 := other], loose := {1});
            TornPart(sha, w, 1) && !HardenAccepts(sha, DropStale(w))
  {
    var w := Staged(sha, data).(files := map[1 := data][1 := other], loose := {1});
    assert 1 in w.parts && w.files[1] == other;
  }

  lemma CrashAndBoot(sha: Hash, s: System)
    ensures Run(sha, s, [Crash, Boot]) == Next(sha, Next(sha, s, Crash), Boot)
  {
    var s1 := Next(sha, s, Crash);
    assert [Crash, Boot][1..] == [Boot];
    assert Run(sha, s1, [Boot]) == Run(sha, Next(sha, s1, Boot), [Boot][1..]);
  }

  /** The faults of a completion of one part whose rename of the assembled file fails. */
  function FailedMove(): (script: seq<bool>) {
    [false, false, false, false, false, false, false, true, false, false, false]
  }

  lemma FailedMoveAlone(sha: Hash, data: Bytes, uuid: Id)
    requires |data| > 0
    ensures var w := Staged(sha, data);
            Alone(sha, w, Op.Complete, Entered, FailedMove(), 0, uuid) ==
              (w.(session := w.session.(objectId := Some(uuid)), payloads := map[uuid := None]), Gone)
  {
    var w, q, op := Staged(sha, data), FailedMove(), Op.Complete;
    var w1 := w.(session := w.session.(phase := Completing, objectId := Some(uuid)));
    OnePartReceived(sha, data);
    assert Alone(sha, w, op, Entered, q, 0, uuid) == Alone(sha, w, op, Reserving(None, [1]), q, 1, uuid)
        == Alone(sha, w1, op, Opening(uuid, [1]), q, 2, uuid);
    FailedMoveAssembles(sha, w1, data, uuid);
    FailedMoveResets(sha, w1.(assembled := Some(data)), uuid);
  }

  lemma FailedMoveAssembles(sha: Hash, w: World, data: Bytes, uuid: Id)
    requires w.staged && w.assembled.None? && w.files == map[1 := data] && Matches(sha, w.session, data)
    ensures Alone(sha, w, Op.Complete, Opening(uuid, [1]), FailedMove(), 2, uuid) ==
            Alone(sha, w.(assembled := Some(data)), Op.Complete, MakingDir(uuid), FailedMove(), 6, uuid)
  {
    var q, op, w1, w2 := FailedMove(), Op.Complete, w.(assembled := Some([])), w.(assembled := Some(data));
    assert [] + data == data;
    assert Alone(sha, w, op, Opening(uuid, [1]), q, 2, uuid) == Alone(sha, w1, op, Copying(uuid, [1], 0), q, 3, uuid)
        == Alone(sha, w2, op, Copying(uuid, [1], 1), q, 4, uuid)
        == Alone(sha, w2, op, Checking(uuid), q, 5, uuid)
        == Alone(sha, w2, op, MakingDir(uuid), q, 6, uuid);
  }

  lemma FailedMoveResets(sha: Hash, w: World, uuid: Id)
    requires w.session.phase.Completing? && w.payloads == map[]
    ensures Alone(sha, w, Op.Complete, MakingDir(uuid), FailedMove(), 6, uuid) ==
            (SetPhase(w, Uploading).(payloads := map[uuid := None], assembled := None), Gone)
  {
    var q, op, w1 := FailedMove(), Op.Complete, w.(payloads := map[uuid := None]);
    assert w.payloads[uuid := None] == map[uuid := None];
    assert Alone(sha, w, op, MakingDir(uuid), q, 6, uuid) == Alone(sha, w1, op, Moving(uuid), q, 7, uuid);
    assert Alone(sha, w1, op, Moving(uuid), q, 7, uuid) == Alone(sha, w1, op, Resetting, q, 8, uuid);
    UndoesAlone(sha, w1, uuid);
  }

  lemma UndoesAlone(sha: Hash, w: World, uuid: Id)
    requires w.session.phase.Completing?
    ensures Alone(sha, w, Op.Complete, Resetting, FailedMove(), 8, uuid) ==
            (SetPhase(w, Uploading).(assembled := None), Gone)
  {
    var q, op, w1 := FailedMove(), Op.Complete, SetPhase(w, Uploading);
    var w2 := w1.(assembled := None);
    assert Alone(sha, w, op, Resetting, q, 8, uuid) == Alone(sha, w1, op, Unlinking, q, 9, uuid);
    assert Alone(sha, w1, op, Unlinking, q, 9, uuid) == Alone(sha, w2, op, Leaving, q, 10, uuid)
        == Alone(sha, w2, op, Gone, q, 11, uuid);
  }

  lemma OnePartReceived(sha: Hash, data: Bytes)
    requires |data| > 0
    ensures var w := Staged(sha, data); AllReceived(w) && Ordered(w.parts.Keys, w.session.Count()) == [1]
  {
    var w := Staged(sha, data);
    assert w.session.Count() == 1 && PlannedSize(|data|, |data|, 1) == |data|;
    assert WorldOk(sha, w);
    PresentIsReceived(sha, w);
    AllReceivedIsComplete(sha, w);
    assert UpTo(1) == [1];
  }

  /** Uploading, every part received, and blocked: a completion whose rename failed left its directory. */
  lemma OrphanDirectoryIsReachable(sha: Hash, data: Bytes, uuid: Id)
    requires |data| > 0
    ensures var events := Request(0, Put(1, data), Quiet(4), uuid) + Request(1, Op.Complete, FailedMove(), uuid);
            var s := Run(sha, OnePart(data), events);
            Inv(sha, s) && Idle(s) && s.w.session.phase.Uploading? && AllReceived(s.w) && Blocked(s)
  {
    var s := OnePart(data);
    var first, second := Request(0, Put(1, data), Quiet(4), uuid), Request(1, Op.Complete, FailedMove(), uuid);
    OnePartPut(sha, data, uuid);
    RunAppend(sha, s, first, second);
    RequestRuns(sha, Run(sha, s, first), 1, Op.Complete, FailedMove(), uuid);
    FailedMoveAlone(sha, data, uuid);
    OnePartReceived(sha, data);
  }
}
