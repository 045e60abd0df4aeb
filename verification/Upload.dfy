/**
 One multipart upload session, as threads, database rows and files.

 Every SQL transaction and every rename, mkdir, unlink or rmtree is one step. Steps of different
 threads interleave freely and a crash may fall between any two of them. Other sessions share
 nothing with this one but the object tables and directories, where they use other identifiers:
 they are the `Foreign` steps.
 */
module Upload {
  import opened Basics
  import opened PartPlan

  type Id = nat
  type Positive = n: nat | n > 0 witness 1

  datatype Phase = Uploading | Completing | Completed | Cancelled | Expired {
    predicate Terminal() {
      Completed? || Cancelled? || Expired?
    }
  }

  datatype Session = Session(
    total: Positive, chunk: Positive, expected: Option<Digest>, phase: Phase, objectId: Option<Id>)
  {
    function Count(): nat {
      PartCount(total, chunk)
    }
  }

  datatype Part = Part(size: nat, digest: Digest)

  /** A row of `objects` or `outbound_transfers`; `mine` says that this session registered it. */
  datatype Record = Record(size: nat, digest: Digest, mine: bool)

  datatype World = World(
    session: Session,
    parts: map<nat, Part>,            // upload_parts, by part number
    records: map<Id, Record>,
    staged: bool,                     // the staging directory exists
    files: map<nat, Bytes>,           // its part files
    assembled: Option<Bytes>,         // its assembled.tmp
    payloads: map<Id, Option<Bytes>>, // isolation directories, empty until the payload is moved in
    loose: set<nat>)                  // history: parts whose last upload replaced the file and failed to commit

  datatype Op = Put(number: nat, data: Bytes) | Complete | Cancel | Expire

  datatype Pc =
    | Start                                                // the session lock is not looked up yet
    | Waiting                                              // holds a reference to a lock object
    | Entered
    | Renaming | Committing                                // put
    | Reserving(plan: Option<Id>, numbers: seq<nat>)       // complete
    | Opening(id: Id, numbers: seq<nat>)
    | Copying(id: Id, numbers: seq<nat>, k: nat)
    | Checking(id: Id)
    | MakingDir(id: Id) | Moving(id: Id) | Inserting(id: Id, digest: Digest) | Undoing(id: Id)
    | Resetting | Unlinking
    | Finalizing(id: Id, recovered: bool)
    | Ending(to: Phase)                                    // cancel, expire
    | Wiping | Purging | Forgetting                        // clean-up after a terminal commit
    | Leaving
    | Gone

  predicate HasLock(pc: Pc) {
    !pc.Start? && !pc.Gone?
  }

  predicate Inside(pc: Pc) {
    HasLock(pc) && !pc.Waiting?
  }

  predicate FreshId(w: World, id: Id) {
    id !in w.records && id !in w.payloads && w.session.objectId != Some(id)
  }

  function Sizes(w: World): map<nat, nat> {
    map n | n in w.parts :: w.parts[n].size
  }

  /** The completeness check made before the object identifier is reserved. */
  predicate AllReceived(w: World) {
    && |Ordered(w.parts.Keys, w.session.Count())| == w.session.Count()
    && Received(Sizes(w), w.session.Count()) == w.session.total
  }

  function SetPhase(w: World, phase: Phase): World {
    w.(session := w.session.(phase := phase))
  }

  /**
   One step of a thread inside the critical section. `fault` makes the step fail or the request be
   refused wherever the service can raise; `uuid` is the next random identifier.
   */
  function Act(sha: Hash, w: World, op: Op, pc: Pc, fault: bool, uuid: Id): (World, Pc) {
    match pc
    case Entered => (w, Enter(w, op, fault))
    case Renaming =>
      if op.Put? && w.staged && !fault then
        (w.(files := w.files[op.number := op.data], loose := w.loose - {op.number}), Committing)
      else (w, Leaving)
    case Committing =>
      if op.Put? && w.session.phase.Uploading? && !fault then
        (w.(parts := w.parts[op.number := Part(|op.data|, sha(op.data))]), Leaving)
      else (if op.Put? then w.(loose := w.loose + {op.number}) else w, Leaving)
    case Reserving(plan, numbers) =>
      if plan.None? && !FreshId(w, uuid) then (w, pc)
      else if !w.session.phase.Uploading? || fault then (w, Leaving)
      else
        var id := if plan.Some? then plan.value else uuid;
        (w.(session := w.session.(phase := Completing, objectId := Some(id))), Opening(id, numbers))
    case Opening(id, numbers) =>
      if w.assembled.Some? || !w.staged || fault then (w, Resetting)
      else (w.(assembled := Some([])), Copying(id, numbers, 0))
    case Copying(id, numbers, k) =>
      if k >= |numbers| then (w, Checking(id))
      else if numbers[k] !in w.files || w.assembled.None? || fault then (w, Resetting)
      else (w.(assembled := Some(w.assembled.value + w.files[numbers[k]])), Copying(id, numbers, k + 1))
    case Checking(id) =>
      if w.assembled.None? || !Matches(sha, w.session, w.assembled.value) || fault then (w, Resetting)
      else (w, MakingDir(id))
    case MakingDir(id) =>
      if id in w.payloads || fault then (w, Resetting)
      else (w.(payloads := w.payloads[id := None]), Moving(id))
    case Moving(id) =>
      if w.assembled.None? || fault then (w, Resetting)
      else (w.(payloads := w.payloads[id := w.assembled], assembled := None), Inserting(id, sha(w.assembled.value)))
    case Inserting(id, digest) =>
      if id in w.records || fault then (w, Undoing(id))
      else (w.(records := w.records[id := Record(w.session.total, digest, true)]), Finalizing(id, false))
    case Undoing(id) => (w.(payloads := w.payloads - {id}), Resetting)
    case Resetting =>
      (if w.session.phase.Completing? && !fault then SetPhase(w, Uploading) else w, Unlinking)
    case Unlinking => (if fault then w else w.(assembled := None), Leaving)
    case Finalizing(id, recovered) =>
      if w.session.phase.Cancelled? || w.session.phase.Expired? || fault then
        (w, if recovered then Leaving else Resetting)
      else (w.(session := w.session.(phase := Completed, objectId := Some(id))), Wiping)
    case Ending(to) =>
      if fault || !(w.session.phase.Uploading? || (to.Expired? && w.session.phase.Completing?)) then (w, Leaving)
      else (SetPhase(w, to), Wiping)
    case Wiping =>
      (if fault then w else w.(staged := false, files := map[], assembled := None), Purging)
    case Purging => if fault then (w, Leaving) else (w.(parts := map[]), Forgetting)
    case Forgetting => (w, Leaving)
    case Leaving => (w, Gone)
    case _ => (w, pc)
  }

  /** The first read inside the critical section and the branch taken on it. */
  function Enter(w: World, op: Op, fault: bool): Pc {
    match op
    case Put(_, _) => if !w.session.phase.Uploading? || fault then Leaving else Renaming
    case Cancel => if !w.session.phase.Uploading? || fault then Leaving else Ending(Cancelled)
    case Expire => Ending(Expired)
    case Complete =>
      var id := w.session.objectId;
      if fault || (w.session.phase.Completed? && id.Some?) then Leaving
      else if id.Some? && id.value in w.records then Finalizing(id.value, true)
      else if !w.session.phase.Uploading? || !AllReceived(w) then Leaving
      else Reserving(id, Ordered(w.parts.Keys, w.session.Count()))
  }

  predicate Matches(sha: Hash, session: Session, bytes: Bytes) {
    |bytes| == session.total && (session.expected.Some? ==> sha(bytes) == session.expected.value)
  }

  // ------------------------------------------------------------------------------------------
  // What holds of the rows and files, and of a thread inside the critical section
  // ------------------------------------------------------------------------------------------

  predicate PlannedPart(session: Session, number: nat, size: nat) {
    1 <= number <= session.Count() && size == PlannedSize(session.total, session.chunk, number)
  }

  ghost predicate WorldOk(sha: Hash, w: World) {
    && (forall n :: n in w.parts ==> PlannedPart(w.session, n, w.parts[n].size))
    && (forall n :: n in w.files ==> PlannedPart(w.session, n, |w.files[n]|))
    && (!w.session.phase.Terminal() ==> w.staged && w.parts.Keys <= w.files.Keys)
    && (forall id :: id in w.records && w.records[id].mine ==> Registered(sha, w, id))
    && (w.session.objectId.Some? && w.session.objectId.value in w.records ==>
          w.records[w.session.objectId.value].mine)
    && (w.session.phase.Completed? ==> w.session.objectId.Some? && w.session.objectId.value in w.records)
    && (w.session.phase.Completing? ==>
          w.session.objectId.Some? && (w.session.objectId.value !in w.records ==> AllPresent(w)))
  }

  /** Every planned part has its row. */
  ghost predicate AllPresent(w: World) {
    forall n :: 1 <= n <= w.session.Count() ==> n in w.parts
  }

  /** What an object registered by this session looks like. */
  ghost predicate Registered(sha: Hash, w: World, id: Id)
    requires id in w.records
  {
    && w.session.objectId == Some(id)
    && id in w.payloads && w.payloads[id].Some?
    && Matches(sha, w.session, w.payloads[id].value)
    && w.records[id].size == w.session.total
    && w.records[id].digest == sha(w.payloads[id].value)
  }

  ghost predicate Holds(w: World, id: Id) {
    w.session.phase.Completing? && w.session.objectId == Some(id) && id !in w.records
  }

  ghost predicate Complete(w: World, numbers: seq<nat>) {
    && numbers == UpTo(w.session.Count())
    && forall n :: 1 <= n <= w.session.Count() ==> n in w.files
  }

  ghost predicate ThreadOk(sha: Hash, w: World, op: Op, pc: Pc) {
    && (op.Put? ==> PlannedPart(w.session, op.number, |op.data|))
    && match pc
       case Renaming => op.Put? && w.session.phase.Uploading?
       case Committing =>
         op.Put? && w.session.phase.Uploading? && op.number in w.files && w.files[op.number] == op.data
       case Reserving(plan, numbers) =>
         && w.session.phase.Uploading? && plan == w.session.objectId
         && (plan.Some? ==> plan.value !in w.records) && Complete(w, numbers) && AllPresent(w)
       case Opening(id, numbers) => Holds(w, id) && Complete(w, numbers)
       case Copying(id, numbers, k) =>
         Holds(w, id) && Complete(w, numbers) && k <= |numbers| && w.assembled == Some(Joined(w.files, k))
       case Checking(id) => Holds(w, id) && w.assembled == Some(Joined(w.files, w.session.Count()))
       case MakingDir(id) => Holds(w, id) && w.assembled.Some? && Matches(sha, w.session, w.assembled.value)
       case Moving(id) =>
         && Holds(w, id) && w.assembled.Some? && Matches(sha, w.session, w.assembled.value)
         && id in w.payloads
       case Inserting(id, digest) =>
         && Holds(w, id) && id in w.payloads && w.payloads[id].Some?
         && Matches(sha, w.session, w.payloads[id].value) && digest == sha(w.payloads[id].value)
       case Undoing(id) => Holds(w, id)
       case Finalizing(id, _) => w.session.objectId == Some(id) && id in w.records
       case Ending(to) => to.Cancelled? || to.Expired?
       case Wiping => w.session.phase.Terminal()
       case Purging => w.session.phase.Terminal()
       case Forgetting => w.session.phase.Terminal()
       case _ => true
  }

  lemma AllReceivedIsComplete(sha: Hash, w: World)
    requires WorldOk(sha, w) && !w.session.phase.Terminal() && AllReceived(w)
    ensures Complete(w, Ordered(w.parts.Keys, w.session.Count())) && AllPresent(w)
  {
    assert Sizes(w).Keys == w.parts.Keys;
    CompletionCheckExact(w.session.total, w.session.chunk, Sizes(w));
  }

  lemma PartStepKeepsWorld(sha: Hash, w: World, op: Op, pc: Pc, fault: bool, uuid: Id)
    requires WorldOk(sha, w) && ThreadOk(sha, w, op, pc) && (pc.Renaming? || pc.Committing? || pc.Reserving?)
    ensures WorldOk(sha, Act(sha, w, op, pc, fault, uuid).0)
  {
  }

  lemma AssemblyStepKeepsWorld(sha: Hash, w: World, op: Op, pc: Pc, fault: bool, uuid: Id)
    requires WorldOk(sha, w) && ThreadOk(sha, w, op, pc)
    requires pc.MakingDir? || pc.Moving? || pc.Inserting? || pc.Undoing?
    ensures WorldOk(sha, Act(sha, w, op, pc, fault, uuid).0)
  {
  }

  lemma ActKeepsWorld(sha: Hash, w: World, op: Op, pc: Pc, fault: bool, uuid: Id)
    requires WorldOk(sha, w) && Inside(pc) && ThreadOk(sha, w, op, pc)
    ensures WorldOk(sha, Act(sha, w, op, pc, fault, uuid).0)
  {
    if pc.Renaming? || pc.Committing? || pc.Reserving? {
      PartStepKeepsWorld(sha, w, op, pc, fault, uuid);
    } else if pc.MakingDir? || pc.Moving? || pc.Inserting? || pc.Undoing? {
      AssemblyStepKeepsWorld(sha, w, op, pc, fault, uuid);
    }
  }

  lemma CopyingKeepsThread(sha: Hash, w: World, op: Op, pc: Pc, fault: bool, uuid: Id)
    requires WorldOk(sha, w) && pc.Copying? && ThreadOk(sha, w, op, pc)
    ensures var (w', pc') := Act(sha, w, op, pc, fault, uuid); ThreadOk(sha, w', op, pc')
  {
    if pc.k < |pc.numbers| {
      assert pc.numbers[pc.k] == pc.k + 1;
      assert Joined(w.files, pc.k + 1) == Joined(w.files, pc.k) + w.files[pc.k + 1];
    }
  }

  lemma EnterKeepsThread(sha: Hash, w: World, op: Op, fault: bool)
    requires WorldOk(sha, w) && ThreadOk(sha, w, op, Entered)
    ensures ThreadOk(sha, w, op, Enter(w, op, fault))
  {
    if op.Complete? && AllReceived(w) && !w.session.phase.Terminal() {
      AllReceivedIsComplete(sha, w);
    }
  }

  lemma AssemblyKeepsThread(sha: Hash, w: World, op: Op, pc: Pc, fault: bool, uuid: Id)
    requires pc.Opening? || pc.Checking? || pc.MakingDir? || pc.Moving? || pc.Inserting? || pc.Undoing?
    requires WorldOk(sha, w) && ThreadOk(sha, w, op, pc)
    ensures var (w', pc') := Act(sha, w, op, pc, fault, uuid); ThreadOk(sha, w', op, pc')
  {
  }

  lemma CommitKeepsThread(sha: Hash, w: World, op: Op, pc: Pc, fault: bool, uuid: Id)
    requires pc.Renaming? || pc.Committing? || pc.Reserving? || pc.Finalizing?
    requires WorldOk(sha, w) && ThreadOk(sha, w, op, pc)
    ensures var (w', pc') := Act(sha, w, op, pc, fault, uuid); ThreadOk(sha, w', op, pc')
  {
  }

  lemma ActKeepsThread(sha: Hash, w: World, op: Op, pc: Pc, fault: bool, uuid: Id)
    requires WorldOk(sha, w) && Inside(pc) && ThreadOk(sha, w, op, pc)
    ensures var (w', pc') := Act(sha, w, op, pc, fault, uuid); ThreadOk(sha, w', op, pc')
  {
    if pc.Entered? {
      EnterKeepsThread(sha, w, op, fault);
    } else if pc.Copying? {
      CopyingKeepsThread(sha, w, op, pc, fault, uuid);
    } else if pc.Opening? || pc.Checking? || pc.MakingDir? || pc.Moving? || pc.Inserting? || pc.Undoing? {
      AssemblyKeepsThread(sha, w, op, pc, fault, uuid);
    } else if pc.Renaming? || pc.Committing? || pc.Reserving? || pc.Finalizing? {
      CommitKeepsThread(sha, w, op, pc, fault, uuid);
    }
  }

  /** A terminal session keeps its phase and identifier, and its part rows only ever go away. */
  lemma ActOnTerminal(sha: Hash, w: World, op: Op, pc: Pc, fault: bool, uuid: Id)
    requires WorldOk(sha, w) && Inside(pc) && ThreadOk(sha, w, op, pc) && w.session.phase.Terminal()
    ensures var (w', _) := Act(sha, w, op, pc, fault, uuid);
            w'.session == w.session && w'.records == w.records && w'.parts.Items <= w.parts.Items
  {
  }

  /** In a terminal session, what one thread does leaves every other thread's facts true. */
  lemma TerminalFrames(sha: Hash, w: World, w': World, op: Op, pc: Pc)
    requires ThreadOk(sha, w, op, pc) && w.session.phase.Terminal()
    requires w'.session == w.session && w'.records == w.records
    ensures ThreadOk(sha, w', op, pc)
  {
  }

  // ------------------------------------------------------------------------------------------
  // The system: threads, session locks, crashes and the startup sequence
  // ------------------------------------------------------------------------------------------

  type ThreadId = nat
  type LockId = nat

  datatype Thread = Thread(op: Op, pc: Pc, lock: LockId)

  /** `Serving`, or how far the startup sequence has come after a crash. */
  datatype Mode =
    | Serving
    | Hardening                                      // storage check, before anything is repaired
    | Refused                                        // the check failed and the process exited
    | Recovering
    | Binding(id: Id) | BindingWipe | BindingPurge   // a completing session whose record exists
    | ClearingTarget(id: Id) | ClearingAssembly | Reopening
    | Sweeping | SweepingParts

  datatype System = System(
    w: World,
    threads: map<ThreadId, Thread>,
    table: Option<LockId>,     // the lock object `_upload_locks` holds for this session
    nextLock: LockId,
    mode: Mode)

  datatype Event =
    | Spawn(t: ThreadId, op: Op)
    | Step(t: ThreadId, fault: bool, uuid: Id)
    | Foreign(id: Id, size: nat, digest: Digest)   // another session or a direct upload
    | Crash
    | Boot

  predicate LockTaken(s: System, t: ThreadId, lock: LockId) {
    exists u :: u in s.threads && u != t && Inside(s.threads[u].pc) && s.threads[u].lock == lock
  }

  predicate Spawnable(w: World, op: Op) {
    op.Put? ==> w.session.phase.Uploading? && PlannedPart(w.session, op.number, |op.data|)
  }

  function StepThread(sha: Hash, s: System, t: ThreadId, fault: bool, uuid: Id): System
    requires t in s.threads
  {
    var th := s.threads[t];
    match th.pc
    case Start =>
      if s.table.Some? then s.(threads := s.threads[t := th.(pc := Waiting, lock := s.table.value)])
      else s.(threads := s.threads[t := th.(pc := Waiting, lock := s.nextLock)],
              table := Some(s.nextLock), nextLock := s.nextLock + 1)
    case Waiting =>
      if LockTaken(s, t, th.lock) then s else s.(threads := s.threads[t := th.(pc := Entered)])
    case Gone => s
    case _ =>
      var (w, pc) := Act(sha, s.w, th.op, th.pc, fault, uuid);
      s.(w := w, threads := s.threads[t := th.(pc := pc)], table := if th.pc.Forgetting? then None else s.table)
  }

  /** The startup check: stale part rows go first, then every payload and part row must match its file. */
  function DropStale(w: World): World {
    if w.session.phase.Terminal() then w.(parts := map[]) else w
  }

  predicate HardenAccepts(sha: Hash, w: World) {
    && (forall id :: id in w.records && w.records[id].mine ==>
          && id in w.payloads && w.payloads[id].Some?
          && |w.payloads[id].value| == w.records[id].size && sha(w.payloads[id].value) == w.records[id].digest)
    && (forall n :: n in w.parts ==>
          n in w.files && |w.files[n]| == w.parts[n].size && sha(w.files[n]) == w.parts[n].digest)
  }

  function BootStep(sha: Hash, w: World, mode: Mode): (World, Mode) {
    match mode
    case Hardening =>
      (DropStale(w), if HardenAccepts(sha, DropStale(w)) then Recovering else Refused)
    case Recovering =>
      if !w.session.phase.Completing? then (w, Sweeping)
      else if w.session.objectId.None? then (w, ClearingAssembly)
      else if w.session.objectId.value in w.records then (w, Binding(w.session.objectId.value))
      else (w, ClearingTarget(w.session.objectId.value))
    case Binding(id) => (w.(session := w.session.(phase := Completed, objectId := Some(id))), BindingWipe)
    case BindingWipe => (w.(staged := false, files := map[], assembled := None), BindingPurge)
    case BindingPurge => (w.(parts := map[]), Sweeping)
    case ClearingTarget(id) => (w.(payloads := w.payloads - {id}), ClearingAssembly)
    case ClearingAssembly => (w.(assembled := None), Reopening)
    case Reopening => (SetPhase(w, Uploading), Sweeping)
    case Sweeping =>
      if w.session.phase.Terminal() then (w.(staged := false, files := map[], assembled := None), SweepingParts)
      else (w, Serving)
    case SweepingParts => (w.(parts := map[]), Serving)
    case _ => (w, mode)
  }

  function Next(sha: Hash, s: System, e: Event): System {
    match e
    case Spawn(t, op) =>
      if s.mode.Serving? && t !in s.threads && Spawnable(s.w, op)
      then s.(threads := s.threads[t := Thread(op, Start, 0)]) else s
    case Step(t, fault, uuid) =>
      if t in s.threads then StepThread(sha, s, t, fault, uuid) else s
    case Foreign(id, size, digest) =>
      if FreshId(s.w, id)
      then s.(w := s.w.(records := s.w.records[id := Record(size, digest, false)],
                        payloads := s.w.payloads[id := Some([])]))
      else s
    case Crash => s.(threads := map[], table := None, mode := Hardening)
    case Boot =>
      var (w, mode) := BootStep(sha, s.w, s.mode);
      s.(w := w, mode := mode)
  }

  function Run(sha: Hash, s: System, events: seq<Event>): System
    decreases |events|, 0
  {
    if events == [] then s else RunFrom(sha, Next(sha, s, events[0]), events[1..])
  }

  /** Going on from where an event has led. */
  function RunFrom(sha: Hash, s: System, events: seq<Event>): System
    decreases |events|, 1
  {
    Run(sha, s, events)
  }

  function Created(total: Positive, chunk: Positive, expected: Option<Digest>): System {
    System(World(Session(total, chunk, expected, Uploading, None), map[], map[], true, map[], None, map[],
                 {}),
           map[], None, 0, Serving)
  }

  // ------------------------------------------------------------------------------------------
  // The invariant of every run
  // ------------------------------------------------------------------------------------------

  ghost predicate LocksOk(s: System) {
    && (s.table.Some? ==> s.table.value < s.nextLock)
    && (forall t :: t in s.threads && HasLock(s.threads[t].pc) ==> s.threads[t].lock < s.nextLock)
    && (forall t :: t in s.threads && HasLock(s.threads[t].pc) && !s.w.session.phase.Terminal() ==>
          s.table == Some(s.threads[t].lock))
    && (forall t, u | t in s.threads && u in s.threads && t != u && Inside(s.threads[t].pc) && Inside(s.threads[u].pc)
          :: s.threads[t].lock != s.threads[u].lock)
  }

  ghost predicate ThreadsOk(sha: Hash, s: System) {
    forall t :: t in s.threads ==> ThreadOk(sha, s.w, s.threads[t].op, s.threads[t].pc)
  }

  ghost predicate ModeOk(w: World, mode: Mode) {
    match mode
    case Binding(id) => w.session.phase.Completing? && w.session.objectId == Some(id) && id in w.records
    case BindingWipe => w.session.phase.Terminal()
    case BindingPurge => w.session.phase.Terminal()
    case ClearingTarget(id) => Holds(w, id)
    case ClearingAssembly => w.session.objectId.Some? && Holds(w, w.session.objectId.value)
    case Reopening => w.session.objectId.Some? && Holds(w, w.session.objectId.value)
    case SweepingParts => w.session.phase.Terminal()
    case _ => true
  }

  /** A re-upload of part n has replaced the staged file and not yet committed its row. */
  ghost predicate InFlight(s: System, n: nat) {
    exists t :: t in s.threads && s.threads[t].pc.Committing? && s.threads[t].op.Put? && s.threads[t].op.number == n
  }

  ghost predicate DigestsAgree(sha: Hash, s: System) {
    !s.w.session.phase.Terminal() ==>
      forall n :: n in s.w.parts && n in s.w.files ==>
        s.w.parts[n].digest == sha(s.w.files[n]) || InFlight(s, n) || n in s.w.loose
  }

  ghost predicate Inv(sha: Hash, s: System) {
    && WorldOk(sha, s.w)
    && LocksOk(s)
    && ThreadsOk(sha, s)
    && ModeOk(s.w, s.mode)
    && (!s.mode.Serving? ==> s.threads == map[])
    && (!s.mode.Hardening? && !s.mode.Refused? ==> DigestsAgree(sha, s))
  }

  /**
   Mutual exclusion in spite of the discarded lock objects: while the session can still change,
   at most one thread is inside the critical section.
   */
  lemma OneInside(sha: Hash, s: System, t: ThreadId, u: ThreadId)
    requires Inv(sha, s) && t in s.threads && u in s.threads && !s.w.session.phase.Terminal()
    requires Inside(s.threads[t].pc) && Inside(s.threads[u].pc)
    ensures t == u
  {
    assert s.table == Some(s.threads[t].lock) && s.table == Some(s.threads[u].lock);
  }

  lemma OutsideFrames(sha: Hash, w: World, w': World, op: Op, pc: Pc)
    requires ThreadOk(sha, w, op, pc) && !Inside(pc)
    requires w'.session.total == w.session.total && w'.session.chunk == w.session.chunk
    ensures ThreadOk(sha, w', op, pc)
  {
  }

  lemma InsideStepFrames(sha: Hash, s: System, t: ThreadId, u: ThreadId, fault: bool, uuid: Id)
    requires Inv(sha, s) && t in s.threads && u in s.threads && t != u && Inside(s.threads[t].pc)
    ensures ThreadOk(sha, StepThread(sha, s, t, fault, uuid).w, s.threads[u].op, s.threads[u].pc)
  {
    var th, other := s.threads[t], s.threads[u];
    var w' := Act(sha, s.w, th.op, th.pc, fault, uuid).0;
    if Inside(other.pc) {
      if !s.w.session.phase.Terminal() {
        OneInside(sha, s, t, u);
      } else {
        TerminalStepFrames(sha, s.w, th.op, th.pc, fault, uuid, other.op, other.pc);
      }
    } else {
      OutsideFrames(sha, s.w, w', other.op, other.pc);
    }
  }

  lemma TerminalStepFrames(sha: Hash, w: World, op: Op, pc: Pc, fault: bool, uuid: Id, otherOp: Op, other: Pc)
    requires WorldOk(sha, w) && Inside(pc) && ThreadOk(sha, w, op, pc) && w.session.phase.Terminal()
    requires ThreadOk(sha, w, otherOp, other)
    ensures ThreadOk(sha, Act(sha, w, op, pc, fault, uuid).0, otherOp, other)
  {
    ActOnTerminal(sha, w, op, pc, fault, uuid);
    TerminalFrames(sha, w, Act(sha, w, op, pc, fault, uuid).0, otherOp, other);
  }

  lemma StepKeepsThreads(sha: Hash, s: System, t: ThreadId, fault: bool, uuid: Id)
    requires Inv(sha, s) && t in s.threads
    ensures WorldOk(sha, StepThread(sha, s, t, fault, uuid).w)
    ensures ThreadsOk(sha, StepThread(sha, s, t, fault, uuid))
  {
    var th := s.threads[t];
    var s' := StepThread(sha, s, t, fault, uuid);
    if Inside(th.pc) {
      ActKeepsWorld(sha, s.w, th.op, th.pc, fault, uuid);
      ActKeepsThread(sha, s.w, th.op, th.pc, fault, uuid);
      forall u | u in s'.threads
        ensures ThreadOk(sha, s'.w, s'.threads[u].op, s'.threads[u].pc)
      {
        if u != t {
          InsideStepFrames(sha, s, t, u, fault, uuid);
        }
      }
    }
  }

  lemma StepKeepsLocks(sha: Hash, s: System, t: ThreadId, fault: bool, uuid: Id)
    requires Inv(sha, s) && t in s.threads
    ensures LocksOk(StepThread(sha, s, t, fault, uuid))
  {
    var th := s.threads[t];
    if Inside(th.pc) {
      ActPhase(sha, s.w, th.op, th.pc, fault, uuid);
    }
  }

  /** How one step can change the phase: never away from a terminal one. */
  lemma ActPhase(sha: Hash, w: World, op: Op, pc: Pc, fault: bool, uuid: Id)
    requires WorldOk(sha, w) && Inside(pc) && ThreadOk(sha, w, op, pc)
    ensures var (w', pc') := Act(sha, w, op, pc, fault, uuid);
            && (w.session.phase.Terminal() ==> w'.session.phase == w.session.phase)
            && (w.session.objectId.Some? ==> w'.session.objectId == w.session.objectId)
            && (HasLock(pc') ==> HasLock(pc)) && (Inside(pc') ==> Inside(pc))
            && (pc.Forgetting? ==> w'.session.phase.Terminal())
  {
  }

  lemma StepKeepsDigests(sha: Hash, s: System, t: ThreadId, fault: bool, uuid: Id)
    requires Inv(sha, s) && t in s.threads && DigestsAgree(sha, s)
    ensures DigestsAgree(sha, StepThread(sha, s, t, fault, uuid))
  {
    var th := s.threads[t];
    var s' := StepThread(sha, s, t, fault, uuid);
    if !s'.w.session.phase.Terminal() {
      if Inside(th.pc) {
        ActPhase(sha, s.w, th.op, th.pc, fault, uuid);
      }
      forall n | n in s'.w.parts && n in s'.w.files
        ensures s'.w.parts[n].digest == sha(s'.w.files[n]) || InFlight(s', n) || n in s'.w.loose
      {
        StepKeepsDigest(sha, s, t, fault, uuid, n);
      }
    }
  }

  /** While the session is live, only a part writer changes the part rows or files, and only its own. */
  lemma ActOnParts(sha: Hash, w: World, op: Op, pc: Pc, fault: bool, uuid: Id, n: nat)
    requires WorldOk(sha, w) && Inside(pc) && ThreadOk(sha, w, op, pc) && !w.session.phase.Terminal()
    requires !(op.Put? && op.number == n && (pc.Renaming? || pc.Committing?))
    ensures var w' := Act(sha, w, op, pc, fault, uuid).0;
            && (n in w'.parts <==> n in w.parts) && (n in w.parts ==> w'.parts[n] == w.parts[n])
            && (n in w'.files <==> n in w.files) && (n in w.files ==> w'.files[n] == w.files[n])
            && (n in w'.loose <==> n in w.loose)
  {
  }

  lemma StepKeepsDigest(sha: Hash, s: System, t: ThreadId, fault: bool, uuid: Id, n: nat)
    requires Inv(sha, s) && t in s.threads && DigestsAgree(sha, s) && !s.w.session.phase.Terminal()
    requires var w' := StepThread(sha, s, t, fault, uuid).w;
             n in w'.parts && n in w'.files && !w'.session.phase.Terminal()
    ensures var s' := StepThread(sha, s, t, fault, uuid);
            s'.w.parts[n].digest == sha(s'.w.files[n]) || InFlight(s', n) || n in s'.w.loose
  {
    var th := s.threads[t];
    if (th.pc.Renaming? || th.pc.Committing?) && th.op.Put? && th.op.number == n {
      WriterKeepsDigest(sha, s, t, fault, uuid, n);
    } else {
      if Inside(th.pc) {
        ActOnParts(sha, s.w, th.op, th.pc, fault, uuid, n);
      }
      if InFlight(s, n) {
        StaysInFlight(sha, s, t, fault, uuid, n);
      }
    }
  }

  lemma WriterKeepsDigest(sha: Hash, s: System, t: ThreadId, fault: bool, uuid: Id, n: nat)
    requires t in s.threads && ThreadOk(sha, s.w, s.threads[t].op, s.threads[t].pc) && DigestsAgree(sha, s)
    requires !s.w.session.phase.Terminal() && LocksOk(s)
    requires s.threads[t].op.Put? && s.threads[t].op.number == n
    requires s.threads[t].pc.Renaming? || s.threads[t].pc.Committing?
    requires var w' := StepThread(sha, s, t, fault, uuid).w; n in w'.parts && n in w'.files
    ensures var s' := StepThread(sha, s, t, fault, uuid);
            s'.w.parts[n].digest == sha(s'.w.files[n]) || InFlight(s', n) || n in s'.w.loose
  {
    var s' := StepThread(sha, s, t, fault, uuid);
    if s'.threads[t].pc.Committing? {
      assert InFlight(s', n);
    } else if s.threads[t].pc.Renaming? {
      assert s'.w == s.w;
      if InFlight(s, n) {
        StaysInFlight(sha, s, t, fault, uuid, n);
      }
    }
  }

  lemma StaysInFlight(sha: Hash, s: System, t: ThreadId, fault: bool, uuid: Id, n: nat)
    requires t in s.threads && InFlight(s, n)
    requires s.threads[t].pc.Committing? && s.threads[t].op.Put? ==> s.threads[t].op.number != n
    ensures InFlight(StepThread(sha, s, t, fault, uuid), n)
  {
    var u :| u in s.threads && s.threads[u].pc.Committing? && s.threads[u].op.Put? && s.threads[u].op.number == n;
    assert StepThread(sha, s, t, fault, uuid).threads[u] == s.threads[u];
  }

  lemma BootKeepsWorld(sha: Hash, w: World, mode: Mode)
    requires WorldOk(sha, w) && ModeOk(w, mode)
    ensures var (w', mode') := BootStep(sha, w, mode);
            && WorldOk(sha, w') && ModeOk(w', mode')
            && (w.session.phase.Terminal() ==> w'.session.phase.Terminal())
  {
    match mode
    case Binding(id) =>
    case BindingWipe =>
    case ClearingTarget(id) =>
    case Sweeping =>
    case _ =>
  }

  lemma BootKeeps(sha: Hash, s: System)
    requires Inv(sha, s) && !s.mode.Serving?
    ensures Inv(sha, Next(sha, s, Boot))
  {
    BootKeepsWorld(sha, s.w, s.mode);
    var s' := Next(sha, s, Boot);
    if !s'.mode.Hardening? && !s'.mode.Refused? && !s'.w.session.phase.Terminal() {
      forall n | n in s'.w.parts && n in s'.w.files
        ensures s'.w.parts[n].digest == sha(s'.w.files[n]) || n in s'.w.loose
      {
        assert s'.w.parts == s.w.parts && s'.w.files == s.w.files;
        assert !InFlight(s, n);
      }
    }
  }

  lemma NextKeepsInv(sha: Hash, s: System, e: Event)
    requires Inv(sha, s)
    ensures Inv(sha, Next(sha, s, e))
  {
    match e
    case Spawn(t, op) => SpawnKeeps(sha, s, t, op);
    case Step(t, fault, uuid) =>
      if t in s.threads {
        StepKeepsThreads(sha, s, t, fault, uuid);
        StepKeepsLocks(sha, s, t, fault, uuid);
        StepKeepsDigests(sha, s, t, fault, uuid);
      }
    case Foreign(id, size, digest) => ForeignKeeps(sha, s, id, size, digest);
    case Crash =>
    case Boot =>
      if !s.mode.Serving? {
        BootKeeps(sha, s);
      }
  }

  lemma SpawnKeeps(sha: Hash, s: System, t: ThreadId, op: Op)
    requires Inv(sha, s)
    ensures Inv(sha, Next(sha, s, Spawn(t, op)))
  {
    var s' := Next(sha, s, Spawn(t, op));
    forall n | InFlight(s, n)
      ensures InFlight(s', n)
    {
      var u :| u in s.threads && s.threads[u].pc.Committing? && s.threads[u].op.Put? && s.threads[u].op.number == n;
      assert u in s'.threads && s'.threads[u] == s.threads[u];
    }
  }

  lemma ForeignKeepsWorld(sha: Hash, w: World, id: Id, size: nat, digest: Digest)
    requires WorldOk(sha, w) && FreshId(w, id)
    ensures WorldOk(sha, w.(records := w.records[id := Record(size, digest, false)],
                            payloads := w.payloads[id := Some([])]))
  {
  }

  lemma ForeignKeeps(sha: Hash, s: System, id: Id, size: nat, digest: Digest)
    requires Inv(sha, s)
    ensures Inv(sha, Next(sha, s, Foreign(id, size, digest)))
  {
    if FreshId(s.w, id) {
      ForeignKeepsWorld(sha, s.w, id, size, digest);
      forall t | t in s.threads
        ensures ThreadOk(sha, Next(sha, s, Foreign(id, size, digest)).w, s.threads[t].op, s.threads[t].pc)
      {
        ForeignKeepsThread(sha, s.w, id, size, digest, s.threads[t].op, s.threads[t].pc);
      }
    }
  }

  lemma ForeignKeepsThread(sha: Hash, w: World, id: Id, size: nat, digest: Digest, op: Op, pc: Pc)
    requires ThreadOk(sha, w, op, pc) && FreshId(w, id)
    ensures ThreadOk(sha, w.(records := w.records[id := Record(size, digest, false)],
                             payloads := w.payloads[id := Some([])]), op, pc)
  {
  }

  // ------------------------------------------------------------------------------------------
  // What holds over every run
  // ------------------------------------------------------------------------------------------

  lemma CreatedOk(sha: Hash, total: Positive, chunk: Positive, expected: Option<Digest>)
    ensures Inv(sha, Created(total, chunk, expected))
  {
  }

  lemma {:induction false} RunKeepsInv(sha: Hash, s: System, events: seq<Event>)
    requires Inv(sha, s)
    ensures Inv(sha, Run(sha, s, events))
    decreases |events|
  {
    if events != [] {
      NextKeepsInv(sha, s, events[0]);
      RunKeepsInv(sha, Next(sha, s, events[0]), events[1..]);
    }
  }

  /** What a later state owes to an earlier one. */
  ghost predicate Follows(w: World, w': World) {
    && (w.session.objectId.Some? ==> w'.session.objectId == w.session.objectId)
    && (w.session.phase.Terminal() ==>
          w'.session.phase == w.session.phase && w'.parts.Items <= w.parts.Items)
    && (forall id :: id in w.records && w.records[id].mine ==>
          id in w'.records && w'.records[id] == w.records[id]
          && id in w.payloads && id in w'.payloads && w'.payloads[id] == w.payloads[id])
  }

  lemma ActFollows(sha: Hash, w: World, op: Op, pc: Pc, fault: bool, uuid: Id)
    requires WorldOk(sha, w) && Inside(pc) && ThreadOk(sha, w, op, pc)
    ensures Follows(w, Act(sha, w, op, pc, fault, uuid).0)
  {
    ActPhase(sha, w, op, pc, fault, uuid);
    if w.session.phase.Terminal() {
      ActOnTerminal(sha, w, op, pc, fault, uuid);
    }
    forall id | id in w.records && w.records[id].mine
      ensures var w' := Act(sha, w, op, pc, fault, uuid).0;
              && id in w'.records && w'.records[id] == w.records[id]
              && id in w.payloads && id in w'.payloads && w'.payloads[id] == w.payloads[id]
    {
      assert Registered(sha, w, id);
      ActOnRegistered(sha, w, op, pc, fault, uuid, id);
    }
  }

  lemma ActOnRegistered(sha: Hash, w: World, op: Op, pc: Pc, fault: bool, uuid: Id, id: Id)
    requires WorldOk(sha, w) && Inside(pc) && ThreadOk(sha, w, op, pc)
    requires id in w.records && w.records[id].mine && w.session.objectId == Some(id) && id in w.payloads
    ensures var w' := Act(sha, w, op, pc, fault, uuid).0;
            && id in w'.records && w'.records[id] == w.records[id]
            && id in w'.payloads && w'.payloads[id] == w.payloads[id]
  {
  }

  lemma BootFollows(sha: Hash, w: World, mode: Mode)
    requires WorldOk(sha, w) && ModeOk(w, mode)
    ensures Follows(w, BootStep(sha, w, mode).0)
  {
    forall id | id in w.records && w.records[id].mine
      ensures Registered(sha, w, id)
    {
    }
  }

  lemma NextFollows(sha: Hash, s: System, e: Event)
    requires Inv(sha, s)
    ensures Follows(s.w, Next(sha, s, e).w)
  {
    forall id | id in s.w.records && s.w.records[id].mine
      ensures Registered(sha, s.w, id)
    {
    }
    match e
    case Step(t, fault, uuid) =>
      if t in s.threads && Inside(s.threads[t].pc) {
        ActFollows(sha, s.w, s.threads[t].op, s.threads[t].pc, fault, uuid);
      }
    case Boot => BootFollows(sha, s.w, s.mode);
    case _ =>
  }

  /**
   Over every run from any reachable state, crashes and restarts included: the planned identifier
   never changes once it is fixed, a terminal session keeps its phase and gains no part row, and a
   registered object keeps its row and its payload.
   */
  lemma {:induction false} RunFollows(sha: Hash, s: System, events: seq<Event>)
    requires Inv(sha, s)
    ensures Follows(s.w, Run(sha, s, events).w)
    decreases |events|
  {
    if events != [] {
      var s1 := Next(sha, s, events[0]);
      NextKeepsInv(sha, s, events[0]);
      NextFollows(sha, s, events[0]);
      RunFollows(sha, s1, events[1..]);
      FollowsTransitive(s.w, s1.w, Run(sha, s1, events[1..]).w);
    }
  }

  lemma FollowsTransitive(a: World, b: World, c: World)
    requires Follows(a, b) && Follows(b, c)
    ensures Follows(a, c)
  {
  }

  /**
   A session registers at most one object, under its planned identifier and with the checked
   bytes; a completed session names that object.
   */
  lemma {:induction false} OneObjectPerSession(sha: Hash, total: Positive, chunk: Positive, expected: Option<Digest>,
                                               events: seq<Event>)
    ensures var w := Run(sha, Created(total, chunk, expected), events).w;
            && (forall a, b :: a in w.records && b in w.records && w.records[a].mine && w.records[b].mine ==> a == b)
            && (forall id :: id in w.records && w.records[id].mine ==>
                  && w.session.objectId == Some(id)
                  && id in w.payloads && w.payloads[id].Some?
                  && |w.payloads[id].value| == w.session.total == w.records[id].size
                  && w.records[id].digest == sha(w.payloads[id].value)
                  && (w.session.expected.Some? ==> w.session.expected.value == w.records[id].digest))
            && (w.session.phase.Completed? ==>
                  w.session.objectId.Some? && w.session.objectId.value in w.records
                  && w.records[w.session.objectId.value].mine)
  {
    CreatedOk(sha, total, chunk, expected);
    RunKeepsInv(sha, Created(total, chunk, expected), events);
    var w := Run(sha, Created(total, chunk, expected), events).w;
    forall id | id in w.records && w.records[id].mine
      ensures Registered(sha, w, id)
    {
    }
  }

  /** Thread t has replaced the file of a part whose row still names other bytes. */
  ghost predicate Torn(sha: Hash, s: System, t: ThreadId) {
    && t in s.threads && s.threads[t].pc.Committing? && s.threads[t].op.Put?
    && s.threads[t].op.number in s.w.parts
    && s.w.parts[s.threads[t].op.number].digest != sha(s.threads[t].op.data)
  }

  /** The last upload of part n replaced its file, failed to commit, and left bytes that the row does not name. */
  predicate TornPart(sha: Hash, w: World, n: nat) {
    && !w.session.phase.Terminal() && n in w.loose && n in w.parts && n in w.files
    && w.parts[n].digest != sha(w.files[n])
  }

  /**
   The startup check after a crash refuses exactly when the crash interrupted the re-upload of a part with
   other bytes between the rename and the commit of its row, or such a commit raised and the part has not been
   uploaded again since. A crash of the startup sequence itself changes no answer of the check.
   */
  lemma StartupRefusedIffTorn(sha: Hash, s: System)
    requires Inv(sha, s)
    ensures var refused := Next(sha, Next(sha, s, Crash), Boot).mode.Refused?;
            match s.mode
            case Hardening => refused <==> Next(sha, s, Boot).mode.Refused?
            case Refused => refused <==> !HardenAccepts(sha, DropStale(s.w))
            case _ => refused <==> (exists t :: Torn(sha, s, t)) || (exists n :: TornPart(sha, s.w, n))
  {
    if !s.mode.Hardening? && !s.mode.Refused? {
      if t :| Torn(sha, s, t) {
        TornIsRefused(sha, s, t);
      } else if n :| TornPart(sha, s.w, n) {
        assert n in DropStale(s.w).parts;
      } else {
        UntornIsAccepted(sha, s);
      }
    }
  }

  lemma TornIsRefused(sha: Hash, s: System, t: ThreadId)
    requires Inv(sha, s) && Torn(sha, s, t)
    ensures !HardenAccepts(sha, DropStale(s.w))
  {
    assert ThreadOk(sha, s.w, s.threads[t].op, s.threads[t].pc);
    assert s.threads[t].op.number in DropStale(s.w).parts;
  }

  lemma UntornIsAccepted(sha: Hash, s: System)
    requires Inv(sha, s) && !s.mode.Hardening? && !s.mode.Refused? && (forall t :: !Torn(sha, s, t))
    requires forall n :: !TornPart(sha, s.w, n)
    ensures HardenAccepts(sha, DropStale(s.w))
  {
    var w := DropStale(s.w);
    forall n | n in w.parts
      ensures n in w.files && |w.files[n]| == w.parts[n].size && sha(w.files[n]) == w.parts[n].digest
    {
      UntornPart(sha, s, n);
    }
  }

  lemma UntornPart(sha: Hash, s: System, n: nat)
    requires Inv(sha, s) && !s.mode.Hardening? && !s.mode.Refused? && (forall t :: !Torn(sha, s, t))
    requires !TornPart(sha, s.w, n) && n in DropStale(s.w).parts
    ensures n in s.w.files && |s.w.files[n]| == s.w.parts[n].size && sha(s.w.files[n]) == s.w.parts[n].digest
  {
    if InFlight(s, n) {
      var t :| t in s.threads && s.threads[t].pc.Committing? && s.threads[t].op.Put? && s.threads[t].op.number == n;
      assert !Torn(sha, s, t);
      assert ThreadOk(sha, s.w, s.threads[t].op, s.threads[t].pc);
    }
  }

  function Booted(sha: Hash, w: World, mode: Mode, steps: nat): (World, Mode)
    decreases steps
  {
    if steps == 0 || mode.Serving? then (w, mode)
    else
      var (w', mode') := BootStep(sha, w, mode);
      Booted(sha, w', mode', steps - 1)
  }

  lemma SweepingBooted(sha: Hash, w: World, steps: nat)
    requires steps >= 2
    ensures Booted(sha, w, Sweeping, steps) ==
              if w.session.phase.Terminal()
              then (w.(staged := false, files := map[], assembled := None, parts := map[]), Serving)
              else (w, Serving)
  {
    if w.session.phase.Terminal() {
      var w1 := w.(staged := false, files := map[], assembled := None);
      assert Booted(sha, w, Sweeping, steps) == Booted(sha, w1, SweepingParts, steps - 1);
      assert Booted(sha, w1, SweepingParts, steps - 1) == Booted(sha, w1.(parts := map[]), Serving, steps - 2);
    } else {
      assert Booted(sha, w, Sweeping, steps) == Booted(sha, w, Serving, steps - 1);
    }
  }

  lemma BindingBooted(sha: Hash, w: World, id: Id)
    ensures Booted(sha, w, Binding(id), 6) ==
              (w.(session := w.session.(phase := Completed, objectId := Some(id)), staged := false, files := map[],
                  assembled := None, parts := map[]), Serving)
  {
    var w1 := w.(session := w.session.(phase := Completed, objectId := Some(id)));
    var w2 := w1.(staged := false, files := map[], assembled := None);
    assert Booted(sha, w, Binding(id), 6) == Booted(sha, w1, BindingWipe, 5) == Booted(sha, w2, BindingPurge, 4);
    assert Booted(sha, w2, BindingPurge, 4) == Booted(sha, w2.(parts := map[]), Sweeping, 3);
    SweepingBooted(sha, w2.(parts := map[]), 3);
  }

  lemma ResetBooted(sha: Hash, w: World, id: Id)
    ensures Booted(sha, w, ClearingTarget(id), 6) ==
              (SetPhase(w, Uploading).(payloads := w.payloads - {id}, assembled := None), Serving)
  {
    var w1 := w.(payloads := w.payloads - {id});
    var w2 := w1.(assembled := None);
    assert Booted(sha, w, ClearingTarget(id), 6) == Booted(sha, w1, ClearingAssembly, 5);
    assert Booted(sha, w1, ClearingAssembly, 5) == Booted(sha, w2, Reopening, 4);
    assert Booted(sha, w2, Reopening, 4) == Booted(sha, SetPhase(w2, Uploading), Sweeping, 3);
    SweepingBooted(sha, SetPhase(w2, Uploading), 3);
  }

  /**
   An undisturbed recovery settles every session. A completing session is bound to its registered
   object when there is one; otherwise it returns to `uploading` with its part rows and staged files
   untouched, its target directory and assembly file gone, and the same planned identifier.
   */
  lemma RecoverySettles(sha: Hash, w: World)
    requires WorldOk(sha, w)
    ensures var (w', mode') := Booted(sha, w, Recovering, 7);
            && mode'.Serving? && WorldOk(sha, w') && !w'.session.phase.Completing?
            && w'.records == w.records && w'.session.objectId == w.session.objectId
            && (w.session.phase.Completing? && w.session.objectId.value in w.records ==>
                  && w'.session.phase.Completed? && w'.payloads == w.payloads
                  && !w'.staged && w'.files == map[] && w'.assembled.None? && w'.parts == map[])
            && (w.session.phase.Completing? && w.session.objectId.value !in w.records ==>
                  && w'.session.phase.Uploading? && w'.parts == w.parts && w'.files == w.files
                  && w'.assembled.None? && w'.payloads == w.payloads - {w.session.objectId.value})
            && (w.session.phase.Uploading? ==> w' == w)
            && (w.session.phase.Terminal() ==>
                  && w'.session == w.session && w'.payloads == w.payloads
                  && !w'.staged && w'.files == map[] && w'.assembled.None? && w'.parts == map[])
  {
    BootedFollows(sha, w, Recovering, 7);
    if !w.session.phase.Completing? {
      assert Booted(sha, w, Recovering, 7) == Booted(sha, w, Sweeping, 6);
      SweepingBooted(sha, w, 6);
    } else {
      var id := w.session.objectId.value;
      if id in w.records {
        assert Booted(sha, w, Recovering, 7) == Booted(sha, w, Binding(id), 6);
        BindingBooted(sha, w, id);
      } else {
        assert Booted(sha, w, Recovering, 7) == Booted(sha, w, ClearingTarget(id), 6);
        ResetBooted(sha, w, id);
      }
    }
  }

  // ------------------------------------------------------------------------------------------
  // One request run on its own
  // ------------------------------------------------------------------------------------------

  /**
   A thread that holds the lock and runs alone. `script` holds one entry per step, the fault
   injected at that step; the thread crashes when the script ends.
   */
  function Alone(sha: Hash, w: World, op: Op, pc: Pc, script: seq<bool>, i: nat, uuid: Id): (World, Pc)
    decreases |script| - i, 0
  {
    if i >= |script| || pc.Gone? then (w, pc)
    else AloneFrom(sha, op, Act(sha, w, op, pc, script[i], uuid), script, i + 1, uuid)
  }

  /** Going on from where a step has led. */
  function AloneFrom(sha: Hash, op: Op, step: (World, Pc), script: seq<bool>, i: nat, uuid: Id): (World, Pc)
    decreases |script| - i, 1
  {
    Alone(sha, step.0, op, step.1, script, i, uuid)
  }

  lemma {:induction false} Onward(sha: Hash, w: World, op: Op, pc: Pc, script: seq<bool>, i: nat, uuid: Id)
    requires i < |script| && !pc.Gone?
    ensures var (w', pc') := Act(sha, w, op, pc, script[i], uuid);
            Alone(sha, w, op, pc, script, i, uuid) == Alone(sha, w', op, pc', script, i + 1, uuid)
  {
  }

  function Steps(t: ThreadId, script: seq<bool>, i: nat, uuid: Id): seq<Event>
    decreases |script| - i
  {
    if i >= |script| then [] else [Step(t, script[i], uuid)] + Steps(t, script, i + 1, uuid)
  }

  /** Running alone is one of the runs of the system. */
  lemma {:induction false} AloneIsRun(sha: Hash, s: System, t: ThreadId, script: seq<bool>, i: nat, uuid: Id)
    requires t in s.threads && (Inside(s.threads[t].pc) || s.threads[t].pc.Gone?)
    ensures var s', th := Run(sha, s, Steps(t, script, i, uuid)), s.threads[t];
            var (w, pc) := Alone(sha, s.w, th.op, th.pc, script, i, uuid);
            s'.w == w && s'.threads == s.threads[t := th.(pc := pc)] && s'.mode == s.mode
    decreases |script| - i
  {
    var th := s.threads[t];
    if i < |script| {
      var s1 := Next(sha, s, Step(t, script[i], uuid));
      var pc1 := s1.threads[t].pc;
      assert Steps(t, script, i, uuid)[1..] == Steps(t, script, i + 1, uuid);
      StepAlone(sha, s, t, script[i], uuid);
      AloneIsRun(sha, s1, t, script, i + 1, uuid);
      assert forall pc :: s.threads[t := th.(pc := pc1)][t := th.(pc := pc)] == s.threads[t := th.(pc := pc)];
      if th.pc.Gone? {
        assert s1 == s;
        assert Alone(sha, s.w, th.op, th.pc, script, i + 1, uuid) == (s.w, th.pc);
      }
    } else {
      assert s.threads[t := th] == s.threads;
    }
  }

  lemma StepAlone(sha: Hash, s: System, t: ThreadId, fault: bool, uuid: Id)
    requires t in s.threads && (Inside(s.threads[t].pc) || s.threads[t].pc.Gone?)
    ensures var s', th := Next(sha, s, Step(t, fault, uuid)), s.threads[t];
            var (w, pc) := if th.pc.Gone? then (s.w, th.pc) else Act(sha, s.w, th.op, th.pc, fault, uuid);
            && s'.w == w && s'.threads == s.threads[t := th.(pc := pc)] && s'.mode == s.mode
            && (Inside(pc) || pc.Gone?) && (th.pc.Gone? ==> s' == s)
  {
    if !s.threads[t].pc.Gone? {
      ActStaysInside(sha, s.w, s.threads[t].op, s.threads[t].pc, fault, uuid);
    }
  }

  lemma ActStaysInside(sha: Hash, w: World, op: Op, pc: Pc, fault: bool, uuid: Id)
    requires Inside(pc)
    ensures var pc' := Act(sha, w, op, pc, fault, uuid).1; Inside(pc') || pc'.Gone?
  {
  }

  /** A request that runs alone keeps the rows and files in order and takes nothing back. */
  lemma {:induction false} AloneKeeps(sha: Hash, w: World, op: Op, pc: Pc, script: seq<bool>, i: nat, uuid: Id)
    requires WorldOk(sha, w) && ThreadOk(sha, w, op, pc) && (Inside(pc) || pc.Gone?)
    ensures var w' := Alone(sha, w, op, pc, script, i, uuid).0; WorldOk(sha, w') && Follows(w, w')
    decreases |script| - i
  {
    if i < |script| && !pc.Gone? {
      var (w1, pc1) := Act(sha, w, op, pc, script[i], uuid);
      ActKeepsWorld(sha, w, op, pc, script[i], uuid);
      ActKeepsThread(sha, w, op, pc, script[i], uuid);
      ActStaysInside(sha, w, op, pc, script[i], uuid);
      ActFollows(sha, w, op, pc, script[i], uuid);
      AloneKeeps(sha, w1, op, pc1, script, i + 1, uuid);
      FollowsTransitive(w, w1, Alone(sha, w1, op, pc1, script, i + 1, uuid).0);
    } else {
      FollowsItself(sha, w);
    }
  }

  lemma FollowsItself(sha: Hash, w: World)
    requires WorldOk(sha, w)
    ensures Follows(w, w)
  {
    forall id | id in w.records && w.records[id].mine
      ensures Registered(sha, w, id)
    {
    }
  }

  /** No request changes anything about a session that is over. */
  lemma {:induction false} TerminalAlone(sha: Hash, w: World, op: Op, script: seq<bool>, uuid: Id)
    requires WorldOk(sha, w) && w.session.phase.Terminal()
    ensures Alone(sha, w, op, Entered, script, 0, uuid).0 == w
  {
    if |script| >= 1 {
      var pc := Enter(w, op, script[0]);
      assert Alone(sha, w, op, Entered, script, 0, uuid) == Alone(sha, w, op, pc, script, 1, uuid);
      if !pc.Leaving? && |script| >= 2 {
        assert Act(sha, w, op, pc, script[1], uuid) == (w, Leaving);
        assert Alone(sha, w, op, pc, script, 1, uuid) == Alone(sha, w, op, Leaving, script, 2, uuid);
        LeavingAlone(sha, w, op, script, 2, uuid);
      } else if pc.Leaving? {
        LeavingAlone(sha, w, op, script, 1, uuid);
      }
    }
  }

  lemma {:induction false} LeavingAlone(sha: Hash, w: World, op: Op, script: seq<bool>, i: nat, uuid: Id)
    ensures Alone(sha, w, op, Leaving, script, i, uuid).0 == w
  {
    if i < |script| {
      assert Alone(sha, w, op, Leaving, script, i, uuid) == Alone(sha, w, op, Gone, script, i + 1, uuid);
    }
  }

  /**
   The requests the state of the session refuses: parts and cancellation once a completion has begun, a completion
   while parts are missing or while another attempt has not come to an end. They change nothing, faults or not.
   */
  predicate RefusedBy(w: World, op: Op) {
    match op
    case Put(_, _) => !w.session.phase.Uploading?
    case Cancel => !w.session.phase.Uploading?
    case Expire => w.session.phase.Terminal()
    case Complete =>
      && (w.session.objectId.Some? ==> w.session.objectId.value !in w.records)
      && (w.session.phase.Uploading? ==> exists n :: 1 <= n <= w.session.Count() && n !in w.parts)
  }

  lemma {:induction false} RefusedAlone(sha: Hash, w: World, op: Op, script: seq<bool>, uuid: Id)
    requires WorldOk(sha, w) && RefusedBy(w, op)
    ensures Alone(sha, w, op, Entered, script, 0, uuid).0 == w
  {
    if op.Expire? {
      TerminalAlone(sha, w, op, script, uuid);
    } else if |script| >= 1 {
      if op.Complete? && AllReceived(w) && w.session.phase.Uploading? {
        AllReceivedIsComplete(sha, w);
      }
      assert Alone(sha, w, op, Entered, script, 0, uuid) == Alone(sha, w, op, Leaving, script, 1, uuid);
      LeavingAlone(sha, w, op, script, 1, uuid);
    }
  }

  /** Cancelling or expiring an open session without faults. */
  lemma {:induction false} EndingAlone(sha: Hash, w: World, op: Op, script: seq<bool>, uuid: Id)
    requires (op.Cancel? && w.session.phase.Uploading?) || (op.Expire? && !w.session.phase.Terminal())
    requires |script| >= 5 && forall j :: 0 <= j < |script| ==> !script[j]
    ensures var to := if op.Cancel? then Cancelled else Expired;
            Alone(sha, w, op, Entered, script, 0, uuid).0 ==
            SetPhase(w, to).(staged := false, files := map[], assembled := None, parts := map[])
  {
    var to := if op.Cancel? then Cancelled else Expired;
    var w1 := SetPhase(w, to);
    var w2 := w1.(staged := false, files := map[], assembled := None);
    var w3 := w2.(parts := map[]);
    assert Alone(sha, w, op, Entered, script, 0, uuid) == Alone(sha, w, op, Ending(to), script, 1, uuid)
        == Alone(sha, w1, op, Wiping, script, 2, uuid) == Alone(sha, w2, op, Purging, script, 3, uuid)
        == Alone(sha, w3, op, Forgetting, script, 4, uuid) == Alone(sha, w3, op, Leaving, script, 5, uuid);
    LeavingAlone(sha, w3, op, script, 5, uuid);
  }

  /** A startup that is cut anywhere keeps the rows and files in order and takes nothing back. */
  lemma {:induction false} BootedFollows(sha: Hash, w: World, mode: Mode, steps: nat)
    requires WorldOk(sha, w) && ModeOk(w, mode)
    ensures WorldOk(sha, Booted(sha, w, mode, steps).0) && Follows(w, Booted(sha, w, mode, steps).0)
    decreases steps
  {
    if steps > 0 && !mode.Serving? {
      var (w1, mode1) := BootStep(sha, w, mode);
      BootKeepsWorld(sha, w, mode);
      BootFollows(sha, w, mode);
      BootedFollows(sha, w1, mode1, steps - 1);
      FollowsTransitive(w, w1, Booted(sha, w1, mode1, steps - 1).0);
    } else {
      FollowsItself(sha, w);
    }
  }

  /** Recovery registers nothing, and it leaves a session that is still uploading alone. */
  lemma {:induction false} BootedRecords(sha: Hash, w: World, mode: Mode, steps: nat)
    ensures Booted(sha, w, mode, steps).0.records == w.records
    ensures w.session.phase.Uploading? && (mode.Recovering? || mode.Sweeping? || mode.Serving?) ==>
              Booted(sha, w, mode, steps).0 == w
    decreases steps
  {
    if steps > 0 && !mode.Serving? {
      var (w1, mode1) := BootStep(sha, w, mode);
      BootedRecords(sha, w1, mode1, steps - 1);
    }
  }

  lemma {:induction false} CopyingStep(sha: Hash, w: World, id: Id, numbers: seq<nat>, k: nat, script: seq<bool>,
                                       i: nat, uuid: Id)
    requires Complete(w, numbers) && k <= |numbers| && w.assembled == Some(Joined(w.files, k))
    requires i < |script| && !script[i]
    ensures Act(sha, w, Op.Complete, Copying(id, numbers, k), script[i], uuid) ==
              if k < |numbers| then (w.(assembled := Some(Joined(w.files, k + 1))), Copying(id, numbers, k + 1))
              else (w, Checking(id))
  {
    if k < |numbers| {
      assert numbers[k] == k + 1;
    }
  }

  lemma {:induction false} CopyingAlone(sha: Hash, w: World, id: Id, numbers: seq<nat>, k: nat,
                                        script: seq<bool>, i: nat, uuid: Id)
    requires Complete(w, numbers) && k <= |numbers| && w.assembled == Some(Joined(w.files, k))
    requires i + (|numbers| - k) < |script| && forall j :: 0 <= j < |script| ==> !script[j]
    ensures Alone(sha, w, Op.Complete, Copying(id, numbers, k), script, i, uuid) ==
            Alone(sha, w.(assembled := Some(Joined(w.files, |numbers|))), Op.Complete, Checking(id), script,
                  i + (|numbers| - k) + 1, uuid)
    decreases |numbers| - k
  {
    CopyingStep(sha, w, id, numbers, k, script, i, uuid);
    if k < |numbers| {
      CopyingAlone(sha, w.(assembled := Some(Joined(w.files, k + 1))), id, numbers, k + 1, script, i + 1, uuid);
    } else {
      assert w.(assembled := Some(Joined(w.files, |numbers|))) == w;
    }
  }

  /** The identifier a completion reserves: the planned one when there is one. */
  function Reserved(w: World, uuid: Id): Id {
    if w.session.objectId.Some? then w.session.objectId.value else uuid
  }

  /**
   Completing a fully received upload without faults. It registers the object under the planned
   identifier if and only if the assembled bytes have the expected digest, and no assembly file and no
   target directory were left behind, and then nothing is left in staging; a failing attempt removes the assembly
   file and changes nothing else but the planned identifier.
   */
  lemma {:induction false} RetryCompletes(sha: Hash, w: World, script: seq<bool>, uuid: Id)
    requires WorldOk(sha, w) && w.session.phase.Uploading? && AllReceived(w)
    requires w.session.objectId.Some? ==> w.session.objectId.value !in w.records
    requires FreshId(w, uuid)
    requires |script| >= w.session.Count() + 14 && forall j :: 0 <= j < |script| ==> !script[j]
    ensures var (w', pc') := Alone(sha, w, Op.Complete, Entered, script, 0, uuid);
            var id := Reserved(w, uuid);
            && pc'.Gone?
            && (w'.session.phase.Completed? <==>
                  && w.assembled.None? && id !in w.payloads
                  && Matches(sha, w.session, Joined(w.files, w.session.Count())))
            && (w'.session.phase.Completed? ==>
                  && w'.session == w.session.(phase := Completed, objectId := Some(id))
                  && !w'.staged && w'.files == map[] && w'.assembled.None? && w'.parts == map[]
                  && var bytes := Joined(w.files, w.session.Count());
                  && w'.records == w.records[id := Record(w.session.total, sha(bytes), true)]
                  && w'.payloads == w.payloads[id := Some(bytes)])
            && (!w'.session.phase.Completed? ==>
                  w' == w.(session := w.session.(objectId := Some(id)), assembled := None))
  {
    AllReceivedIsComplete(sha, w);
    var numbers := Ordered(w.parts.Keys, w.session.Count());
    var id := Reserved(w, uuid);
    var w1 := w.(session := w.session.(phase := Completing, objectId := Some(id)));
    assert Alone(sha, w, Op.Complete, Entered, script, 0, uuid)
        == Alone(sha, w, Op.Complete, Reserving(w.session.objectId, numbers), script, 1, uuid);
    assert Alone(sha, w, Op.Complete, Reserving(w.session.objectId, numbers), script, 1, uuid)
        == Alone(sha, w1, Op.Complete, Opening(id, numbers), script, 2, uuid);
    AssembleAlone(sha, w1, id, numbers, script, 2, uuid);
  }

  /**
   From the agent's file to the object: when every staged part is the agent's slice of a source file,
   an undisturbed completion registers exactly that file.
   */
  lemma {:induction false} CompletionDeliversSource(sha: Hash, w: World, source: Bytes, script: seq<bool>, uuid: Id)
    requires WorldOk(sha, w) && w.session.phase.Uploading? && w.assembled.None? && |source| == w.session.total
    requires w.session.expected.Some? ==> w.session.expected.value == sha(source)
    requires forall n :: 1 <= n <= w.session.Count() ==> n in w.parts
    requires forall n :: 1 <= n <= w.session.Count() ==> n in w.files && w.files[n] == Slice(source, w.session.chunk, n)
    requires FreshId(w, uuid) && Reserved(w, uuid) !in w.records && Reserved(w, uuid) !in w.payloads
    requires |script| >= w.session.Count() + 14 && forall j :: 0 <= j < |script| ==> !script[j]
    ensures var w' := Alone(sha, w, Op.Complete, Entered, script, 0, uuid).0;
            var id := Reserved(w, uuid);
            && w'.session.phase.Completed? && w'.session.objectId == Some(id)
            && id in w'.payloads && w'.payloads[id] == Some(source)
            && id in w'.records && w'.records[id] == Record(|source|, sha(source), true)
  {
    PresentIsReceived(sha, w);
    SlicesJoin(w, source);
    RetryCompletes(sha, w, script, uuid);
  }

  lemma PresentIsReceived(sha: Hash, w: World)
    requires WorldOk(sha, w) && forall n :: 1 <= n <= w.session.Count() ==> n in w.parts
    ensures AllReceived(w)
  {
    CompletionCheckExact(w.session.total, w.session.chunk, Sizes(w));
    assert Sizes(w).Keys == w.parts.Keys;
  }

  lemma SlicesJoin(w: World, source: Bytes)
    requires |source| == w.session.total
    requires forall n :: 1 <= n <= w.session.Count() ==> n in w.files && w.files[n] == Slice(source, w.session.chunk, n)
    ensures Joined(w.files, w.session.Count()) == source
  {
    AssemblyIsSource(source, w.session.chunk, w.files);
  }

  lemma {:induction false} OpeningAlone(sha: Hash, w: World, id: Id, numbers: seq<nat>, script: seq<bool>, i: nat,
                                        uuid: Id)
    requires w.staged && i < |script| && !script[i]
    ensures Alone(sha, w, Op.Complete, Opening(id, numbers), script, i, uuid) ==
              if w.assembled.Some? then Alone(sha, w, Op.Complete, Resetting, script, i + 1, uuid)
              else Alone(sha, w.(assembled := Some([])), Op.Complete, Copying(id, numbers, 0), script, i + 1, uuid)
  {
  }

  lemma {:induction false} AssembleAlone(sha: Hash, w: World, id: Id, numbers: seq<nat>, script: seq<bool>, i: nat,
                                         uuid: Id)
    requires Holds(w, id) && Complete(w, numbers) && w.staged
    requires i + w.session.Count() + 12 <= |script| && forall j :: 0 <= j < |script| ==> !script[j]
    ensures var (w', pc') := Alone(sha, w, Op.Complete, Opening(id, numbers), script, i, uuid);
            var bytes := Joined(w.files, w.session.Count());
            pc'.Gone? &&
            if w.assembled.Some? || id in w.payloads || !Matches(sha, w.session, bytes)
            then w' == SetPhase(w, Uploading).(assembled := None)
            else
              w' == w.(session := w.session.(phase := Completed), staged := false, files := map[], assembled := None,
                       parts := map[], records := w.records[id := Record(w.session.total, sha(bytes), true)],
                       payloads := w.payloads[id := Some(bytes)])
  {
    if w.assembled.Some? {
      OpeningAlone(sha, w, id, numbers, script, i, uuid);
      ResettingAlone(sha, w, script, i + 1, uuid);
    } else {
      var w1 := w.(assembled := Some([]));
      OpeningAlone(sha, w, id, numbers, script, i, uuid);
      CopyingAlone(sha, w1, id, numbers, 0, script, i + 1, uuid);
      var w2 := w1.(assembled := Some(Joined(w.files, w.session.Count())));
      RegisterAlone(sha, w2, id, script, i + w.session.Count() + 2, uuid);
    }
  }

  lemma {:induction false} ResettingAlone(sha: Hash, w: World, script: seq<bool>, i: nat, uuid: Id)
    requires w.session.phase.Completing? && i + 3 <= |script| && forall j :: 0 <= j < |script| ==> !script[j]
    ensures Alone(sha, w, Op.Complete, Resetting, script, i, uuid)
         == (SetPhase(w, Uploading).(assembled := None), Gone)
  {
    var w1 := SetPhase(w, Uploading);
    assert Alone(sha, w, Op.Complete, Resetting, script, i, uuid)
        == Alone(sha, w1, Op.Complete, Unlinking, script, i + 1, uuid)
        == Alone(sha, w1.(assembled := None), Op.Complete, Leaving, script, i + 2, uuid)
        == Alone(sha, w1.(assembled := None), Op.Complete, Gone, script, i + 3, uuid);
  }

  lemma {:induction false} RegisterAlone(sha: Hash, w: World, id: Id, script: seq<bool>, i: nat, uuid: Id)
    requires Holds(w, id) && w.assembled.Some?
    requires i + 10 <= |script| && forall j :: 0 <= j < |script| ==> !script[j]
    ensures var (w', pc') := Alone(sha, w, Op.Complete, Checking(id), script, i, uuid);
            pc'.Gone? &&
            if id in w.payloads || !Matches(sha, w.session, w.assembled.value)
            then w' == SetPhase(w, Uploading).(assembled := None)
            else
              w' == w.(session := w.session.(phase := Completed), staged := false, files := map[], assembled := None,
                       parts := map[],
                       records := w.records[id := Record(w.session.total, sha(w.assembled.value), true)],
                       payloads := w.payloads[id := w.assembled])
  {
    if !Matches(sha, w.session, w.assembled.value) {
      assert Alone(sha, w, Op.Complete, Checking(id), script, i, uuid)
          == Alone(sha, w, Op.Complete, Resetting, script, i + 1, uuid);
      ResettingAlone(sha, w, script, i + 1, uuid);
      return;
    }
    assert Alone(sha, w, Op.Complete, Checking(id), script, i, uuid)
        == Alone(sha, w, Op.Complete, MakingDir(id), script, i + 1, uuid);
    if id in w.payloads {
      assert Alone(sha, w, Op.Complete, MakingDir(id), script, i + 1, uuid)
          == Alone(sha, w, Op.Complete, Resetting, script, i + 2, uuid);
      ResettingAlone(sha, w, script, i + 2, uuid);
    } else {
      StoreAlone(sha, w, id, script, i + 1, uuid);
    }
  }

  /** From the target directory to the closed session. */
  lemma {:induction false} StoreAlone(sha: Hash, w: World, id: Id, script: seq<bool>, i: nat, uuid: Id)
    requires Holds(w, id) && w.assembled.Some? && id !in w.payloads
    requires i + 9 <= |script| && forall j :: 0 <= j < |script| ==> !script[j]
    ensures Alone(sha, w, Op.Complete, MakingDir(id), script, i, uuid) ==
            (w.(session := w.session.(phase := Completed), staged := false, files := map[], assembled := None,
                parts := map[], records := w.records[id := Record(w.session.total, sha(w.assembled.value), true)],
                payloads := w.payloads[id := w.assembled]), Gone)
  {
    var digest := sha(w.assembled.value);
    var w1 := w.(payloads := w.payloads[id := None]);
    var w2 := w1.(payloads := w1.payloads[id := w.assembled], assembled := None);
    var w3 := w2.(records := w2.records[id := Record(w.session.total, digest, true)]);
    assert w2.payloads == w.payloads[id := w.assembled];
    assert Alone(sha, w, Op.Complete, MakingDir(id), script, i, uuid)
        == Alone(sha, w1, Op.Complete, Moving(id), script, i + 1, uuid)
        == Alone(sha, w2, Op.Complete, Inserting(id, digest), script, i + 2, uuid)
        == Alone(sha, w3, Op.Complete, Finalizing(id, false), script, i + 3, uuid);
    FinalizingAlone(sha, w3, id, false, script, i + 3, uuid);
  }

  lemma {:induction false} FinalizingAlone(sha: Hash, w: World, id: Id, recovered: bool, script: seq<bool>, i: nat,
                                           uuid: Id)
    requires !w.session.phase.Cancelled? && !w.session.phase.Expired? && w.session.objectId == Some(id)
    requires i + 6 <= |script| && forall j :: 0 <= j < |script| ==> !script[j]
    ensures Alone(sha, w, Op.Complete, Finalizing(id, recovered), script, i, uuid) ==
            (w.(session := w.session.(phase := Completed), staged := false, files := map[], assembled := None,
                parts := map[]), Gone)
  {
    var w1 := w.(session := w.session.(phase := Completed, objectId := Some(id)));
    var w2 := w1.(staged := false, files := map[], assembled := None);
    var w3 := w2.(parts := map[]);
    assert Alone(sha, w, Op.Complete, Finalizing(id, recovered), script, i, uuid)
        == Alone(sha, w1, Op.Complete, Wiping, script, i + 1, uuid);
    assert Alone(sha, w1, Op.Complete, Wiping, script, i + 1, uuid)
        == Alone(sha, w2, Op.Complete, Purging, script, i + 2, uuid)
        == Alone(sha, w3, Op.Complete, Forgetting, script, i + 3, uuid);
    LeavesAlone(sha, w3, script, i + 3, uuid);
  }

  /**
   Completing again when the object is registered already, because an earlier attempt failed or was cut before
   the session was closed: nothing is assembled again, the session is closed with that object and cleaned up.
   */
  lemma {:induction false} RecoveredCompletes(sha: Hash, w: World, script: seq<bool>, uuid: Id)
    requires !w.session.phase.Terminal()
    requires w.session.objectId.Some? && w.session.objectId.value in w.records
    requires |script| >= 7 && forall j :: 0 <= j < |script| ==> !script[j]
    ensures Alone(sha, w, Op.Complete, Entered, script, 0, uuid) ==
            (w.(session := w.session.(phase := Completed), staged := false, files := map[], assembled := None,
                parts := map[]), Gone)
  {
    var id := w.session.objectId.value;
    assert Alone(sha, w, Op.Complete, Entered, script, 0, uuid)
        == Alone(sha, w, Op.Complete, Finalizing(id, true), script, 1, uuid);
    FinalizingAlone(sha, w, id, true, script, 1, uuid);
  }

  lemma {:induction false} LeavesAlone(sha: Hash, w: World, script: seq<bool>, i: nat, uuid: Id)
    requires i + 2 <= |script|
    ensures Alone(sha, w, Op.Complete, Forgetting, script, i, uuid) == (w, Gone)
  {
    assert Alone(sha, w, Op.Complete, Forgetting, script, i, uuid)
        == Alone(sha, w, Op.Complete, Leaving, script, i + 1, uuid);
    assert Alone(sha, w, Op.Complete, Leaving, script, i + 1, uuid)
        == Alone(sha, w, Op.Complete, Gone, script, i + 2, uuid);
  }

  /**
   Whatever fails while a registered object is bound to its session again: the session is completed with that object,
   or the attempt has changed nothing at all, so that the next one can bind it.
   */
  lemma {:induction false} RecoveredFails(sha: Hash, w: World, script: seq<bool>, uuid: Id)
    requires !w.session.phase.Terminal()
    requires w.session.objectId.Some? && w.session.objectId.value in w.records
    ensures var w' := Alone(sha, w, Op.Complete, Entered, script, 0, uuid).0;
            || w' == w
            || (&& w'.session == w.session.(phase := Completed)
                && w'.records == w.records && w'.payloads == w.payloads)
  {
    if |script| >= 1 {
      var id := w.session.objectId.value;
      var pc := if script[0] then Leaving else Finalizing(id, true);
      Onward(sha, w, Op.Complete, Entered, script, 0, uuid);
      if script[0] {
        LeavingAlone(sha, w, Op.Complete, script, 1, uuid);
      } else if |script| >= 2 {
        Onward(sha, w, Op.Complete, pc, script, 1, uuid);
        if script[1] {
          LeavingAlone(sha, w, Op.Complete, script, 2, uuid);
        } else {
          WipingAlone(sha, w.(session := w.session.(phase := Completed)), Wiping, script, 2, uuid);
        }
      }
    }
  }

  lemma {:induction false} WipingAlone(sha: Hash, w: World, pc: Pc, script: seq<bool>, i: nat, uuid: Id)
    requires pc.Wiping? || pc.Purging? || pc.Forgetting? || pc.Leaving? || pc.Gone?
    ensures var w' := Alone(sha, w, Op.Complete, pc, script, i, uuid).0;
            w'.session == w.session && w'.records == w.records && w'.payloads == w.payloads
    decreases |script| - i
  {
    if i < |script| && !pc.Gone? {
      var (w1, pc1) := Act(sha, w, Op.Complete, pc, script[i], uuid);
      WipingAlone(sha, w1, pc1, script, i + 1, uuid);
    }
  }

  // ------------------------------------------------------------------------------------------
  // One failure, and the retry after it
  // ------------------------------------------------------------------------------------------

  /** A received upload whose completion nothing stands in the way of: its bytes match, nothing was left behind. */
  ghost predicate Ready(sha: Hash, w: World, id: Id) {
    && WorldOk(sha, w) && w.session.phase.Uploading? && AllPresent(w) && w.assembled.None?
    && (w.session.objectId.Some? ==> w.session.objectId == Some(id))
    && id !in w.records && id !in w.payloads && Matches(sha, w.session, Joined(w.files, w.session.Count()))
  }

  function Begun(w: World, id: Id): World {
    w.(session := w.session.(phase := Completing, objectId := Some(id)))
  }

  function Inserted(sha: Hash, w: World, id: Id): World {
    var bytes := Joined(w.files, w.session.Count());
    w.(payloads := w.payloads[id := Some(bytes)], records := w.records[id := Record(w.session.total, sha(bytes), true)])
  }

  /** Registered and closed; the clean-up may have failed. */
  ghost predicate Closed(sha: Hash, w: World, w': World, id: Id) {
    && w'.session == w.session.(phase := Completed, objectId := Some(id))
    && w'.records == Inserted(sha, w, id).records && w'.payloads == Inserted(sha, w, id).payloads
  }

  /** Parts and part files as before, and the identifier with its object, with an empty directory, or with nothing. */
  ghost predicate Kept(sha: Hash, w: World, w': World, id: Id) {
    && w'.parts == w.parts && w'.files == w.files && w'.staged && w'.session.objectId == Some(id)
    && (|| (w'.records == w.records && w'.payloads == w.payloads)
        || (w'.records == w.records && w'.payloads == w.payloads[id := None])
        || (w'.records == Inserted(sha, w, id).records && w'.payloads == Inserted(sha, w, id).payloads))
  }

  /** A step of such a completion has led from w0 to w; `failed` when one of its steps has failed. */
  ghost predicate Attempt(sha: Hash, w0: World, id: Id, w: World, pc: Pc, failed: bool) {
    var w1, bytes := Begun(w0, id), Joined(w0.files, w0.session.Count());
    match pc
    case Entered => w == w0
    case Reserving(plan, numbers) => w == w0 && plan == w0.session.objectId && Complete(w0, numbers)
    case Opening(i, numbers) => i == id && w == w1 && Complete(w0, numbers)
    case Copying(i, numbers, k) =>
      i == id && Complete(w0, numbers) && k <= |numbers| && w == w1.(assembled := Some(Joined(w0.files, k)))
    case Checking(i) => i == id && w == w1.(assembled := Some(bytes))
    case MakingDir(i) => i == id && w == w1.(assembled := Some(bytes))
    case Moving(i) => i == id && w == w1.(assembled := Some(bytes), payloads := w0.payloads[id := None])
    case Inserting(i, digest) => i == id && digest == sha(bytes) && w == w1.(payloads := w0.payloads[id := Some(bytes)])
    case Undoing(i) => i == id && failed && w == w1.(payloads := w0.payloads[id := Some(bytes)])
    case Finalizing(i, recovered) => i == id && !recovered && w == Inserted(sha, w1, id)
    case Resetting => failed && w.session == w1.session && Kept(sha, w0, w, id)
    case Unlinking => failed && w.session == w0.session.(objectId := Some(id)) && Kept(sha, w0, w, id)
    case Wiping => Closed(sha, w0, w, id)
    case Purging => Closed(sha, w0, w, id)
    case Forgetting => Closed(sha, w0, w, id)
    case Leaving => Ended(sha, w0, w, id)
    case Gone => Ended(sha, w0, w, id)
    case _ => false
  }

  ghost predicate Ended(sha: Hash, w: World, w': World, id: Id) {
    || w' == w || Closed(sha, w, w', id)
    || (w'.session == w.session.(objectId := Some(id)) && w'.assembled.None? && Kept(sha, w, w', id))
  }

  lemma AttemptEnters(sha: Hash, w0: World, id: Id, pc: Pc, fault: bool, uuid: Id)
    requires Ready(sha, w0, id) && Attempt(sha, w0, id, w0, pc, false) && FreshId(w0, uuid) && id == Reserved(w0, uuid)
    requires pc.Entered? || pc.Reserving?
    ensures var (w', pc') := Act(sha, w0, Op.Complete, pc, fault, uuid); Attempt(sha, w0, id, w', pc', fault)
  {
    if pc.Entered? {
      PresentIsReceived(sha, w0);
      AllReceivedIsComplete(sha, w0);
    }
  }

  lemma AttemptCopies(sha: Hash, w0: World, id: Id, w: World, pc: Pc, fault: bool, uuid: Id)
    requires Ready(sha, w0, id) && Attempt(sha, w0, id, w, pc, false) && pc.Copying?
    ensures var (w', pc') := Act(sha, w, Op.Complete, pc, fault, uuid); Attempt(sha, w0, id, w', pc', fault)
  {
    if pc.k < |pc.numbers| {
      assert pc.numbers[pc.k] == pc.k + 1;
      assert Joined(w0.files, pc.k + 1) == Joined(w0.files, pc.k) + w0.files[pc.k + 1];
    }
  }

  lemma AttemptChecks(sha: Hash, w0: World, id: Id, w: World, pc: Pc, fault: bool, uuid: Id)
    requires Ready(sha, w0, id) && Attempt(sha, w0, id, w, pc, false) && (pc.Opening? || pc.Checking?)
    ensures var (w', pc') := Act(sha, w, Op.Complete, pc, fault, uuid); Attempt(sha, w0, id, w', pc', fault)
  {
  }

  lemma AttemptRegisters(sha: Hash, w0: World, id: Id, w: World, pc: Pc, fault: bool, uuid: Id)
    requires Ready(sha, w0, id) && Attempt(sha, w0, id, w, pc, false)
    requires pc.MakingDir? || pc.Moving? || pc.Inserting? || pc.Finalizing?
    ensures var (w', pc') := Act(sha, w, Op.Complete, pc, fault, uuid); Attempt(sha, w0, id, w', pc', fault)
  {
    if pc.Moving? {
      var bytes := w.assembled.value;
      assert w0.payloads[id := None][id := Some(bytes)] == w0.payloads[id := Some(bytes)];
    }
  }

  lemma AttemptEnds(sha: Hash, w0: World, id: Id, w: World, pc: Pc, fault: bool, failed: bool, uuid: Id)
    requires Ready(sha, w0, id) && Attempt(sha, w0, id, w, pc, failed) && !(fault && failed)
    requires pc.Undoing? || pc.Resetting? || pc.Unlinking? || pc.Wiping? || pc.Purging? || pc.Forgetting? || pc.Leaving?
    ensures var (w', pc') := Act(sha, w, Op.Complete, pc, fault, uuid); Attempt(sha, w0, id, w', pc', failed || fault)
  {
    if pc.Undoing? {
      assert w.payloads - {id} == w0.payloads;
    }
  }

  lemma AttemptStep(sha: Hash, w0: World, id: Id, w: World, pc: Pc, fault: bool, failed: bool, uuid: Id)
    requires Ready(sha, w0, id) && Attempt(sha, w0, id, w, pc, failed) && !(fault && failed) && !pc.Gone?
    requires FreshId(w0, uuid) && id == Reserved(w0, uuid)
    ensures var (w', pc') := Act(sha, w, Op.Complete, pc, fault, uuid); Attempt(sha, w0, id, w', pc', failed || fault)
  {
    if pc.Entered? || pc.Reserving? {
      AttemptEnters(sha, w0, id, pc, fault, uuid);
    } else if pc.Copying? {
      AttemptCopies(sha, w0, id, w, pc, fault, uuid);
    } else if pc.Opening? || pc.Checking? {
      AttemptChecks(sha, w0, id, w, pc, fault, uuid);
    } else if pc.MakingDir? || pc.Moving? || pc.Inserting? || pc.Finalizing? {
      AttemptRegisters(sha, w0, id, w, pc, fault, uuid);
    } else {
      AttemptEnds(sha, w0, id, w, pc, fault, failed, uuid);
    }
    var (w', pc') := Act(sha, w, Op.Complete, pc, fault, uuid);
    AttemptWeakens(sha, w0, id, w', pc', fault, failed);
  }

  lemma AttemptWeakens(sha: Hash, w0: World, id: Id, w: World, pc: Pc, fault: bool, failed: bool)
    ensures Attempt(sha, w0, id, w, pc, fault) ==> Attempt(sha, w0, id, w, pc, failed || fault)
  {
  }

  lemma {:induction false} AttemptAlone(sha: Hash, w0: World, id: Id, w: World, pc: Pc, failed: bool, script: seq<bool>,
                                        i: nat, uuid: Id)
    requires Ready(sha, w0, id) && Attempt(sha, w0, id, w, pc, failed) && FreshId(w0, uuid) && id == Reserved(w0, uuid)
    requires OneFault(script) && (failed ==> forall j :: i <= j < |script| ==> !script[j])
    ensures var (w', pc') := Alone(sha, w, Op.Complete, pc, script, i, uuid); Attempt(sha, w0, id, w', pc', true)
    decreases |script| - i
  {
    if i < |script| && !pc.Gone? {
      var (w1, pc1) := Act(sha, w, Op.Complete, pc, script[i], uuid);
      AttemptStep(sha, w0, id, w, pc, script[i], failed, uuid);
      AttemptAlone(sha, w0, id, w1, pc1, failed || script[i], script, i + 1, uuid);
    } else {
      AttemptWeakens(sha, w0, id, w, pc, failed, true);
    }
  }

  /** At most one step fails. */
  predicate OneFault(script: seq<bool>) {
    forall j, k :: 0 <= j < k < |script| && script[j] ==> !script[k]
  }

  /** The object of the session: its row and its payload. */
  ghost predicate Delivered(sha: Hash, w: World, id: Id, bytes: Bytes) {
    && id in w.records && w.records[id] == Record(|bytes|, sha(bytes), true)
    && id in w.payloads && w.payloads[id] == Some(bytes)
  }

  /**
   One failure anywhere in a completion that nothing else stands in the way of. When the request has ended the
   session is completed with its object, or open again with all its parts, never left completing; the object is
   registered with its payload or not at all, and the most an unregistered one leaves is an empty directory.
   */
  lemma {:induction false} OneFailureReopens(sha: Hash, w: World, script: seq<bool>, uuid: Id)
    requires Ready(sha, w, Reserved(w, uuid)) && FreshId(w, uuid) && OneFault(script)
    ensures var (w', pc') := Alone(sha, w, Op.Complete, Entered, script, 0, uuid);
            var id, bytes := Reserved(w, uuid), Joined(w.files, w.session.Count());
            pc'.Gone? ==>
              && (w'.session.phase.Completed? || w'.session.phase.Uploading?)
              && (w'.session.phase.Completed? ==> w'.session.objectId == Some(id) && Delivered(sha, w', id, bytes))
              && (w'.session.phase.Uploading? ==>
                    w'.parts == w.parts && w'.files == w.files && w'.staged && w'.assembled.None?)
              && (Delivered(sha, w', id, bytes) || w'.records == w.records)
              && (id in w'.payloads && id !in w'.records ==> w'.payloads[id].None?)
  {
    AttemptAlone(sha, w, Reserved(w, uuid), w, Entered, false, script, 0, uuid);
  }

  /**
   And the retry: whatever step of the first attempt failed, the next completion delivers the object, under the
   same identifier once there was one, unless the failure has left the empty directory.
   */
  lemma {:induction false} OneFailureThenRetry(sha: Hash, w: World, script: seq<bool>, uuid: Id, retry: seq<bool>,
                                               other: Id)
    requires Ready(sha, w, Reserved(w, uuid)) && FreshId(w, uuid) && OneFault(script)
    requires var (w1, pc1) := Alone(sha, w, Op.Complete, Entered, script, 0, uuid); pc1.Gone? && FreshId(w1, other)
    requires |retry| >= w.session.Count() + 14 && forall j :: 0 <= j < |retry| ==> !retry[j]
    ensures var w1 := Alone(sha, w, Op.Complete, Entered, script, 0, uuid).0;
            var w2 := Alone(sha, w1, Op.Complete, Entered, retry, 0, other).0;
            var id, bytes := Reserved(w, uuid), Joined(w.files, w.session.Count());
            && (w2.session.phase.Completed? <==> !(id in w1.payloads && w1.payloads[id].None?))
            && (w2.session.phase.Completed? ==>
                  w2.session.objectId.Some? && Delivered(sha, w2, w2.session.objectId.value, bytes))
            && (w1.session.objectId.Some? ==> w2.session.objectId == w1.session.objectId == Some(id))
  {
    var w1 := Alone(sha, w, Op.Complete, Entered, script, 0, uuid).0;
    AloneKeeps(sha, w, Op.Complete, Entered, script, 0, uuid);
    AttemptAlone(sha, w, Reserved(w, uuid), w, Entered, false, script, 0, uuid);
    RetryAfterFailure(sha, w, w1, Reserved(w, uuid), retry, other);
  }

  lemma {:induction false} RetryAfterFailure(sha: Hash, w: World, w1: World, id: Id, retry: seq<bool>, other: Id)
    requires Ready(sha, w, id) && WorldOk(sha, w1) && Ended(sha, w, w1, id) && FreshId(w1, other)
    requires |retry| >= w.session.Count() + 14 && forall j :: 0 <= j < |retry| ==> !retry[j]
    ensures var w2 := Alone(sha, w1, Op.Complete, Entered, retry, 0, other).0;
            var bytes := Joined(w.files, w.session.Count());
            && (w2.session.phase.Completed? <==> !(id in w1.payloads && w1.payloads[id].None?))
            && (w2.session.phase.Completed? ==>
                  w2.session.objectId.Some? && Delivered(sha, w2, w2.session.objectId.value, bytes))
            && (w1.session.objectId.Some? ==> w2.session.objectId == w1.session.objectId == Some(id))
  {
    if w1.session.phase.Completed? {
      TerminalAlone(sha, w1, Op.Complete, retry, other);
    } else if id in w1.records {
      RecoveredCompletes(sha, w1, retry, other);
    } else {
      PresentIsReceived(sha, w1);
      RetryCompletes(sha, w1, retry, other);
    }
  }
}
