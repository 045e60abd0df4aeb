/**
 The life of one inbound object: scan worker passes that move a clean payload to the released
 directory themselves, timeouts, dead letters, rescans, expiry and purge. Threads interleave freely
 and a crash may drop all of them at any point.
 */
module Inbound {
  import opened Basics

  datatype State = PendingScan | Scanning | Quarantined | Released | Rejected | Expired

  predicate Allowed(from: State, to: State) {
    match from
    case PendingScan => to.Scanning? || to.Expired?
    case Scanning => to.Quarantined? || to.Released? || to.Rejected?
    case Quarantined => to.PendingScan? || to.Expired?
    case Released => to.Expired?
    case Rejected => to.Expired?
    case Expired => false
  }

  datatype Place = Isolation | ReleasedDir | Purged

  datatype Row = Row(state: State, size: nat, digest: Digest, typeKnown: bool, typeConflict: bool, place: Place)

  datatype File = File(bytes: Bytes, sealed: bool)

  datatype Status = Clean | Infected | Failed

  /** What a scan pass has established so far: integrity before the scanners, their verdicts, integrity after. */
  datatype Pass = Pass(first: bool, statuses: Option<seq<Status>>, second: bool)

  const NO_PASS: Pass := Pass(false, None, false)

  /** State-change events of the audit log; the pass is the one of the thread that wrote the event. */
  datatype Entry = Registered | Changed(from: State, to: State, pass: Pass)

  datatype World = World(
    row: Row,
    iso: Option<File>,     // objects/isolation/<id>/payload
    outDir: bool,          // objects/released/<id>
    out: Option<File>,     // its payload
    log: seq<Entry>,
    runtime: bool)

  datatype Op = Scan | Timeout | DeadLetter | Expire | Rescan | Purge

  datatype After = ToFirstCheck | ToFailing | ToDeadSecond | ToEnd

  datatype Move = Move(to: State, next: After, fail: After)

  datatype Pc =
    | Start
    | Reading(m: Move) | Swapping(from: State, m: Move)   // transition: read, compare-and-swap
    | FirstCheck | RunScanners | SecondCheck
    | MakeDir | MoveFile | DropSource | SavePath | Seal   // release of a clean payload
    | Failing
    | DeadSecond
    | PurgeFile | PurgeRow
    | Gone

  datatype Local = Local(pc: Pc, pass: Pass, path: Place)

  /** What the environment decides for one step: whether the step raises instead, and what the scanners say. */
  datatype Choice = Choice(ok: bool, statuses: seq<Status>)

  function Resume(a: After): Pc {
    match a
    case ToFirstCheck => FirstCheck
    case ToFailing => Failing
    case ToDeadSecond => DeadSecond
    case ToEnd => Gone
  }

  predicate Matches(sha: Hash, row: Row, file: Option<File>) {
    file.Some? && |file.value.bytes| == row.size && sha(file.value.bytes) == row.digest
  }

  predicate Intact(sha: Hash, w: World, place: Place) {
    match place
    case Isolation => Matches(sha, w.row, w.iso)
    case ReleasedDir => Matches(sha, w.row, w.out)
    case Purged => false
  }

  predicate AllClean(statuses: seq<Status>) {
    forall i :: 0 <= i < |statuses| ==> statuses[i].Clean?
  }

  predicate AnyInfected(statuses: seq<Status>) {
    exists i :: 0 <= i < |statuses| && statuses[i].Infected?
  }

  function Swap(w: World, from: State, to: State, pass: Pass): World {
    w.(row := w.row.(state := to), log := w.log + [Changed(from, to, pass)])
  }

  function MoveTo(l: Local, to: State): Local {
    l.(pc := Reading(Move(to, ToEnd, ToFailing)))
  }

  function StartOf(w: World, op: Op, l: Local): Local {
    match op
    case Scan => l.(pc := Reading(Move(Scanning, ToFirstCheck, ToEnd)))
    case Timeout => l.(pc := if w.row.state.Scanning? then Reading(Move(Quarantined, ToEnd, ToEnd)) else Gone)
    case DeadLetter =>
      l.(pc := if w.row.state.PendingScan? then Reading(Move(Scanning, ToDeadSecond, ToEnd)) else DeadSecond)
    case Expire => l.(pc := Reading(Move(Expired, ToEnd, ToEnd)))
    case Rescan => l.(pc := if w.row.state.Quarantined? then Reading(Move(PendingScan, ToEnd, ToEnd)) else Gone)
    case Purge =>
      if w.row.state.Expired? && !w.row.place.Purged? then l.(pc := PurgeFile, path := w.row.place)
      else l.(pc := Gone)
  }

  predicate InScan(pc: Pc) {
    pc.FirstCheck? || pc.RunScanners? || pc.SecondCheck? || pc.Failing?
  }

  predicate InRelease(pc: Pc) {
    pc.MakeDir? || pc.MoveFile? || pc.DropSource? || pc.SavePath? || pc.Seal?
  }

  function ScanStep(sha: Hash, w: World, l: Local, c: Choice): Local {
    match l.pc
    case FirstCheck =>
      var l := l.(path := w.row.place);
      if !w.runtime || !Intact(sha, w, l.path) then MoveTo(l, Quarantined)
      else l.(pass := NO_PASS.(first := true), pc := RunScanners)
    case RunScanners =>
      var l := l.(pass := l.pass.(statuses := Some(c.statuses)));
      if AnyInfected(c.statuses) then MoveTo(l, Rejected)
      else if !AllClean(c.statuses) || !w.row.typeKnown || w.row.typeConflict then MoveTo(l, Quarantined)
      else l.(pc := SecondCheck)
    case SecondCheck =>
      if !Intact(sha, w, l.path) then MoveTo(l, Quarantined)
      else l.(pass := l.pass.(second := true), pc := MakeDir)
    case Failing =>
      l.(pc := if w.row.state.Scanning? then Reading(Move(Quarantined, ToEnd, ToEnd)) else Gone)
    case _ => l
  }

  /** mkdir refuses an existing directory; the path update carries no state guard. */
  function ReleaseStep(w: World, l: Local): (World, Local) {
    match l.pc
    case MakeDir => if w.outDir then (w, l.(pc := Failing)) else (w.(outDir := true), l.(pc := MoveFile))
    case MoveFile =>
      if !l.path.Isolation? || w.iso.None? || !w.outDir then (w, l.(pc := Failing))
      else (w.(out := w.iso, iso := None), l.(pc := DropSource))
    case DropSource => (w.(iso := None), l.(pc := SavePath))
    case SavePath => (w.(row := w.row.(place := ReleasedDir)), l.(pc := Seal))
    case Seal =>
      if w.out.None? then (w, l.(pc := Failing))
      else (w.(out := Some(w.out.value.(sealed := true))), MoveTo(l, Released))
    case _ => (w, l)
  }

  function CommonStep(w: World, op: Op, l: Local): (World, Local) {
    match l.pc
    case Start => (w, StartOf(w, op, l))
    case Reading(m) =>
      (w, l.(pc := if Allowed(w.row.state, m.to) then Swapping(w.row.state, m) else Resume(m.fail)))
    case Swapping(from, m) =>
      if w.row.state == from then (Swap(w, from, m.to, l.pass), l.(pc := Resume(m.next)))
      else (w, l.(pc := Resume(m.fail)))
    case DeadSecond =>
      (w, l.(pc := if w.row.state.Scanning? then Reading(Move(Quarantined, ToEnd, ToEnd)) else Gone))
    case PurgeFile =>
      (if l.path.ReleasedDir? then w.(out := None, outDir := false)
       else if l.path.Isolation? then w.(iso := None) else w,
       l.(pc := PurgeRow))
    case PurgeRow => (w.(row := w.row.(place := Purged)), l.(pc := Gone))
    case _ => (w, l)
  }

  /** Every statement and file operation may raise, but for the removal that ignores errors. */
  predicate Raises(l: Local, c: Choice) {
    !c.ok && !l.pc.DropSource? && !l.pc.Gone?
  }

  /** Where an exception leads: a scan pass fails closed, everything else ends. */
  function Raised(l: Local): Local {
    l.(pc := match l.pc
             case Reading(m) => Resume(m.fail)
             case Swapping(_, m) => Resume(m.fail)
             case FirstCheck => Failing
             case RunScanners => Failing
             case SecondCheck => Failing
             case MakeDir => Failing
             case MoveFile => Failing
             case SavePath => Failing
             case Seal => Failing
             case _ => Gone)
  }

  function Proceed(sha: Hash, w: World, op: Op, l: Local, c: Choice): (World, Local) {
    if InScan(l.pc) then (w, ScanStep(sha, w, l, c))
    else if InRelease(l.pc) then ReleaseStep(w, l)
    else CommonStep(w, op, l)
  }

  function Act(sha: Hash, w: World, op: Op, l: Local, c: Choice): (World, Local) {
    if Raises(l, c) then (w, Raised(l)) else Proceed(sha, w, op, l, c)
  }

  // ------------------------------------------------------------------------------------------
  // The system and its runs
  // ------------------------------------------------------------------------------------------

  type ThreadId = nat

  datatype Thread = Thread(op: Op, local: Local)

  datatype System = System(w: World, threads: map<ThreadId, Thread>, submitted: Bytes, tampered: bool)

  datatype Event =
    | Spawn(t: ThreadId, op: Op)
    | Step(t: ThreadId, c: Choice)
    | Crash
    | Tamper(place: Place, bytes: Bytes)
    | SetRuntime(accepted: bool)

  function Next(sha: Hash, s: System, e: Event): System {
    match e
    case Spawn(t, op) =>
      if t in s.threads then s
      else s.(threads := s.threads[t := Thread(op, Local(Start, NO_PASS, Isolation))])
    case Step(t, c) =>
      if t !in s.threads then s
      else
        var (w, l) := Act(sha, s.w, s.threads[t].op, s.threads[t].local, c);
        s.(w := w, threads := s.threads[t := s.threads[t].(local := l)])
    case Crash => s.(threads := map[])
    case Tamper(place, bytes) =>
      if place.Isolation? && s.w.iso.Some? then
        s.(w := s.w.(iso := Some(s.w.iso.value.(bytes := bytes))), tampered := true)
      else if place.ReleasedDir? && s.w.out.Some? then
        s.(w := s.w.(out := Some(s.w.out.value.(bytes := bytes))), tampered := true)
      else s
    case SetRuntime(accepted) => s.(w := s.w.(runtime := accepted))
  }

  function Run(sha: Hash, s: System, events: seq<Event>): System
    decreases |events|, 0
  {
    if events == [] then s else RunFrom(sha, Next(sha, s, events[0]), events[1..])
  }

  /** Going on from where an event has led. */
  function RunFrom(sha: Hash, s: System, events: seq<Event>): System
    decreases |events|, 1
  {
    Run(sha, s, events)
  }

  function Submitted(sha: Hash, bytes: Bytes, typeKnown: bool, typeConflict: bool): System {
    System(World(Row(PendingScan, |bytes|, sha(bytes), typeKnown, typeConflict, Isolation),
                 Some(File(bytes, false)), false, None, [Registered], true),
           map[], bytes, false)
  }

  function Replay(log: seq<Entry>): Option<State>
    decreases |log|
  {
    if log == [] then None
    else
      var last := log[|log| - 1];
      if |log| == 1 then (if last.Registered? then Some(PendingScan) else None)
      else if last.Changed? && Replay(log[..|log| - 1]) == Some(last.from) && Allowed(last.from, last.to)
      then Some(last.to) else None
  }

  // ------------------------------------------------------------------------------------------
  // The invariant
  // ------------------------------------------------------------------------------------------

  ghost predicate Justified(known: bool, conflict: bool, to: State, pass: Pass) {
    && (to.Released? ==>
          pass.first && pass.statuses.Some? && AllClean(pass.statuses.value) && pass.second && known && !conflict)
    && (to.Rejected? ==> pass.first && pass.statuses.Some? && AnyInfected(pass.statuses.value))
  }

  ghost predicate LogOk(state: State, known: bool, conflict: bool, log: seq<Entry>) {
    && Replay(log) == Some(state)
    && forall i :: 0 <= i < |log| && log[i].Changed? ==> Justified(known, conflict, log[i].to, log[i].pass)
  }

  /** Until expiry the payload is in exactly one directory, and a row that names the released one is right. */
  ghost predicate FilesOk(w: World) {
    && (!w.row.state.Expired? ==>
          && w.iso.Some? != w.out.Some? && !w.row.place.Purged?
          && (w.row.place.ReleasedDir? ==> w.out.Some?) && (w.out.Some? ==> w.outDir))
    && (w.row.state.Released? ==> w.row.place.ReleasedDir?)
    && (w.iso.Some? ==> !w.iso.value.sealed)
  }

  ghost predicate WorldOk(w: World) {
    LogOk(w.row.state, w.row.typeKnown, w.row.typeConflict, w.log) && FilesOk(w)
  }

  ghost predicate Saved(w: World) {
    !w.row.state.Expired? ==> w.out.Some? && w.row.place.ReleasedDir?
  }

  ghost predicate ReadyToRelease(w: World, l: Local) {
    Justified(w.row.typeKnown, w.row.typeConflict, Released, l.pass)
  }

  ghost predicate MoveOk(w: World, l: Local, m: Move) {
    Justified(w.row.typeKnown, w.row.typeConflict, m.to, l.pass) && (m.to.Released? ==> Saved(w))
  }

  ghost predicate LocalOk(w: World, l: Local) {
    match l.pc
    case Reading(m) => MoveOk(w, l, m)
    case Swapping(from, m) => MoveOk(w, l, m) && Allowed(from, m.to)
    case RunScanners => l.pass.first
    case SecondCheck => ReadyToRelease(w, l.(pass := l.pass.(second := true)))
    case MakeDir => ReadyToRelease(w, l)
    case MoveFile => ReadyToRelease(w, l) && (!w.row.state.Expired? ==> w.outDir)
    case DropSource => ReadyToRelease(w, l) && (!w.row.state.Expired? ==> w.out.Some?)
    case SavePath => ReadyToRelease(w, l) && (!w.row.state.Expired? ==> w.out.Some?)
    case Seal => ReadyToRelease(w, l) && Saved(w)
    case PurgeFile => w.row.state.Expired?
    case PurgeRow => w.row.state.Expired?
    case _ => true
  }

  ghost predicate BytesOk(w: World, submitted: Bytes) {
    && (w.iso.Some? ==> w.iso.value.bytes == submitted)
    && (w.out.Some? ==> w.out.value.bytes == submitted)
  }

  ghost predicate Inv(sha: Hash, s: System) {
    && WorldOk(s.w)
    && (forall t :: t in s.threads ==> LocalOk(s.w, s.threads[t].local))
    && s.w.row.size == |s.submitted| && s.w.row.digest == sha(s.submitted)
    && (!s.tampered ==> BytesOk(s.w, s.submitted))
  }

  ghost predicate Stable(w: World, w': World) {
    && w'.row.typeConflict == w.row.typeConflict && w'.row.typeKnown == w.row.typeKnown
    && w'.row.size == w.row.size && w'.row.digest == w.row.digest
    && (w.row.state.Expired? ==> w'.row.state.Expired?)
    && (!w'.row.state.Expired? ==>
          && (w.out.Some? ==> w'.out.Some?)
          && (w.row.place.ReleasedDir? ==> w'.row.place.ReleasedDir?)
          && (w.outDir ==> w'.outDir))
  }

  ghost predicate MovesBytes(w: World, w': World) {
    && (w'.iso.Some? ==> w'.iso == w.iso)
    && (w'.out.Some? ==> (w.out.Some? && w'.out.value.bytes == w.out.value.bytes) || w'.out == w.iso)
  }

  lemma {:induction false} ExtendLog(state: State, known: bool, conflict: bool, log: seq<Entry>, e: Entry)
    requires LogOk(state, known, conflict, log)
    requires e.Changed? && e.from == state && Allowed(state, e.to) && Justified(known, conflict, e.to, e.pass)
    ensures LogOk(e.to, known, conflict, log + [e])
  {
    assert (log + [e])[..|log|] == log;
  }

  lemma LocalFrames(w: World, w': World, l: Local)
    requires LocalOk(w, l) && Stable(w, w')
    ensures LocalOk(w', l)
  {
  }

  lemma ScanStepKeeps(sha: Hash, w: World, l: Local, c: Choice)
    requires LocalOk(w, l) && InScan(l.pc)
    ensures LocalOk(w, ScanStep(sha, w, l, c))
  {
  }

  lemma ReleaseStepKeeps(w: World, l: Local)
    requires WorldOk(w) && LocalOk(w, l) && InRelease(l.pc)
    ensures var (w', l') := ReleaseStep(w, l);
            WorldOk(w') && LocalOk(w', l') && Stable(w, w') && MovesBytes(w, w')
  {
  }

  lemma ResumeOk(w: World, l: Local, a: After)
    ensures LocalOk(w, l.(pc := Resume(a)))
  {
  }

  lemma SwappingKeeps(w: World, op: Op, l: Local)
    requires WorldOk(w) && LocalOk(w, l) && l.pc.Swapping?
    ensures var (w', l') := CommonStep(w, op, l);
            WorldOk(w') && LocalOk(w', l') && Stable(w, w') && MovesBytes(w, w')
  {
    if w.row.state == l.pc.from {
      ExtendLog(w.row.state, w.row.typeKnown, w.row.typeConflict, w.log, Changed(l.pc.from, l.pc.m.to, l.pass));
    }
    ResumeOk(w, l, l.pc.m.fail);
    ResumeOk(CommonStep(w, op, l).0, l, l.pc.m.next);
  }

  lemma StartKeeps(w: World, op: Op, l: Local)
    requires l.pc.Start? || l.pc.Reading? || l.pc.DeadSecond?
    requires LocalOk(w, l)
    ensures var (w', l') := CommonStep(w, op, l); w' == w && LocalOk(w, l')
  {
    if l.pc.Reading? {
      ResumeOk(w, l, l.pc.m.fail);
    }
  }

  lemma CommonStepKeeps(w: World, op: Op, l: Local)
    requires WorldOk(w) && LocalOk(w, l) && !InScan(l.pc) && !InRelease(l.pc)
    ensures var (w', l') := CommonStep(w, op, l);
            WorldOk(w') && LocalOk(w', l') && Stable(w, w') && MovesBytes(w, w')
  {
    if l.pc.Swapping? {
      SwappingKeeps(w, op, l);
    } else if l.pc.Start? || l.pc.Reading? || l.pc.DeadSecond? {
      StartKeeps(w, op, l);
    } else if l.pc.PurgeFile? || l.pc.PurgeRow? {
      PurgeKeeps(w, op, l);
    }
  }

  lemma PurgeKeeps(w: World, op: Op, l: Local)
    requires WorldOk(w) && LocalOk(w, l) && (l.pc.PurgeFile? || l.pc.PurgeRow?)
    ensures var (w', l') := CommonStep(w, op, l);
            WorldOk(w') && LocalOk(w', l') && Stable(w, w') && MovesBytes(w, w')
  {
  }

  lemma RaisedOk(w: World, l: Local)
    ensures LocalOk(w, Raised(l))
  {
  }

  lemma ActKeeps(sha: Hash, w: World, op: Op, l: Local, c: Choice)
    requires WorldOk(w) && LocalOk(w, l)
    ensures var (w', l') := Act(sha, w, op, l, c);
            WorldOk(w') && LocalOk(w', l') && Stable(w, w') && MovesBytes(w, w')
  {
    if Raises(l, c) {
      RaisedOk(w, l);
    } else if InScan(l.pc) {
      ScanStepKeeps(sha, w, l, c);
    } else if InRelease(l.pc) {
      ReleaseStepKeeps(w, l);
    } else {
      CommonStepKeeps(w, op, l);
    }
  }

  lemma NextKeepsInv(sha: Hash, s: System, e: Event)
    requires Inv(sha, s)
    ensures Inv(sha, Next(sha, s, e))
  {
    var s' := Next(sha, s, e);
    if e.Step? && e.t in s.threads {
      ActKeeps(sha, s.w, s.threads[e.t].op, s.threads[e.t].local, e.c);
    }
    forall u | u in s'.threads
      ensures LocalOk(s'.w, s'.threads[u].local)
    {
      if u in s.threads && s'.threads[u] == s.threads[u] {
        LocalFrames(s.w, s'.w, s.threads[u].local);
      }
    }
  }

  // ------------------------------------------------------------------------------------------
  // What holds over every run
  // ------------------------------------------------------------------------------------------

  lemma SubmittedOk(sha: Hash, bytes: Bytes, typeKnown: bool, typeConflict: bool)
    ensures Inv(sha, Submitted(sha, bytes, typeKnown, typeConflict))
  {
  }

  lemma {:induction false} RunKeepsInv(sha: Hash, s: System, events: seq<Event>)
    requires Inv(sha, s)
    ensures Inv(sha, Run(sha, s, events))
    decreases |events|
  {
    if events != [] {
      NextKeepsInv(sha, s, events[0]);
      RunKeepsInv(sha, Next(sha, s, events[0]), events[1..]);
    }
  }

  /** Replaying the audit log alone reproduces the state column, in every reachable store. */
  lemma {:induction false} ReplayAgrees(sha: Hash, bytes: Bytes, typeKnown: bool, typeConflict: bool,
                                        events: seq<Event>)
    ensures var w := Run(sha, Submitted(sha, bytes, typeKnown, typeConflict), events).w;
            Replay(w.log) == Some(w.row.state)
  {
    SubmittedOk(sha, bytes, typeKnown, typeConflict);
    RunKeepsInv(sha, Submitted(sha, bytes, typeKnown, typeConflict), events);
  }

  /**
   Fail-closed release. A released object was released by a pass in which both integrity checks held
   and every scanner said clean, its type is known and unconflicted, and its row names the released
   directory, where the payload is.
   */
  lemma FailClosed(sha: Hash, s: System)
    requires Inv(sha, s) && s.w.row.state.Released?
    ensures var log, n := s.w.log, |s.w.log|;
            && n >= 3 && log[n - 1].Changed? && log[n - 2].Changed?
            && log[n - 1].to.Released? && log[n - 2].to.Scanning? && log[n - 2].from.PendingScan?
            && log[n - 1].pass.first && log[n - 1].pass.second
            && log[n - 1].pass.statuses.Some? && AllClean(log[n - 1].pass.statuses.value)
            && s.w.row.typeKnown && !s.w.row.typeConflict
            && s.w.row.place.ReleasedDir? && s.w.out.Some? && s.w.iso.None?
            && (!s.tampered ==> s.w.out.value.bytes == s.submitted)
  {
    var log, n := s.w.log, |s.w.log|;
    assert Replay(log[..n - 1]) == Some(Scanning);
    assert log[..n - 1][n - 2] == log[n - 2];
  }

  /** The startup storage check for this object's row. */
  predicate HardenAccepts(sha: Hash, w: World, production: bool) {
    match w.row.place
    case Purged => true
    case Isolation => Matches(sha, w.row, w.iso) && (production ==> !w.iso.value.sealed)
    case ReleasedDir => Matches(sha, w.row, w.out) && (production ==> w.out.value.sealed)
  }

  // ------------------------------------------------------------------------------------------
  // A scan pass on its own
  // ------------------------------------------------------------------------------------------

  function Alone(sha: Hash, w: World, op: Op, l: Local, script: seq<Choice>, i: nat): (World, Local)
    decreases |script| - i, 0
  {
    if i >= |script| || l.pc.Gone? then (w, l) else AloneFrom(sha, op, Act(sha, w, op, l, script[i]), script, i + 1)
  }

  /** Going on from where a step has led. */
  function AloneFrom(sha: Hash, op: Op, step: (World, Local), script: seq<Choice>, i: nat): (World, Local)
    decreases |script| - i, 1
  {
    Alone(sha, step.0, op, step.1, script, i)
  }

  lemma {:induction false} Onward(sha: Hash, w: World, op: Op, l: Local, script: seq<Choice>, i: nat)
    requires i < |script| && !l.pc.Gone?
    ensures var (w', l') := Act(sha, w, op, l, script[i]);
            Alone(sha, w, op, l, script, i) == Alone(sha, w', op, l', script, i + 1)
  {
  }

  function Steps(t: ThreadId, script: seq<Choice>, i: nat): seq<Event>
    decreases |script| - i
  {
    if i >= |script| then [] else [Step(t, script[i])] + Steps(t, script, i + 1)
  }

  /** Running alone is one of the runs of the system: it moves this thread and the world, and no other thread. */
  lemma {:induction false} AloneIsRun(sha: Hash, s: System, t: ThreadId, script: seq<Choice>, i: nat)
    requires t in s.threads
    ensures var (w, l) := Alone(sha, s.w, s.threads[t].op, s.threads[t].local, script, i);
            Run(sha, s, Steps(t, script, i)) == s.(w := w, threads := s.threads[t := Thread(s.threads[t].op, l)])
    decreases |script| - i
  {
    if i < |script| {
      assert Steps(t, script, i)[1..] == Steps(t, script, i + 1);
      if s.threads[t].local.pc.Gone? {
        assert Next(sha, s, Step(t, script[i])) == s;
      }
      AloneIsRun(sha, Next(sha, s, Step(t, script[i])), t, script, i + 1);
    } else {
      assert s.threads[t := s.threads[t]] == s.threads;
    }
  }

  lemma {:induction false} RunAppend(sha: Hash, s: System, first: seq<Event>, second: seq<Event>)
    ensures Run(sha, s, first + second) == Run(sha, Run(sha, s, first), second)
    decreases |first|
  {
    if first == [] {
      assert first + second == second;
    } else {
      assert (first + second)[1..] == first[1..] + second;
      RunAppend(sha, Next(sha, s, first[0]), first[1..], second);
    }
  }

  /** A thread is spawned and runs alone. */
  lemma {:induction false} SpawnedAlone(sha: Hash, s: System, t: ThreadId, op: Op, script: seq<Choice>)
    requires t !in s.threads
    ensures var (w, l) := Alone(sha, s.w, op, Local(Start, NO_PASS, Isolation), script, 0);
            Run(sha, s, [Spawn(t, op)] + Steps(t, script, 0)) == s.(w := w, threads := s.threads[t := Thread(op, l)])
  {
    var events := [Spawn(t, op)] + Steps(t, script, 0);
    var s1 := Next(sha, s, Spawn(t, op));
    var (w, l) := Alone(sha, s.w, op, Local(Start, NO_PASS, Isolation), script, 0);
    assert events[1..] == Steps(t, script, 0);
    AloneIsRun(sha, s1, t, script, 0);
    assert s1.threads[t := Thread(op, l)] == s.threads[t := Thread(op, l)];
  }

  /** An operation that runs alone keeps the row, the log and the files in order. */
  lemma {:induction false} AloneKeeps(sha: Hash, w: World, op: Op, l: Local, script: seq<Choice>, i: nat)
    requires WorldOk(w) && LocalOk(w, l)
    ensures WorldOk(Alone(sha, w, op, l, script, i).0)
    decreases |script| - i
  {
    if i < |script| && !l.pc.Gone? {
      var (w1, l1) := Act(sha, w, op, l, script[i]);
      ActKeeps(sha, w, op, l, script[i]);
      AloneKeeps(sha, w1, op, l1, script, i + 1);
    }
  }

  ghost predicate Grows(w: World, w': World) {
    w.log <= w'.log && w'.row.size == w.row.size && w'.row.digest == w.row.digest && MovesBytes(w, w')
  }

  lemma ReleaseGrows(w: World, l: Local)
    ensures Grows(w, ReleaseStep(w, l).0)
  {
  }

  lemma CommonGrows(w: World, op: Op, l: Local)
    ensures Grows(w, CommonStep(w, op, l).0)
  {
  }

  lemma ActGrows(sha: Hash, w: World, op: Op, l: Local, c: Choice)
    ensures Grows(w, Act(sha, w, op, l, c).0)
  {
    ReleaseGrows(w, l);
    CommonGrows(w, op, l);
  }

  /** It only ever extends the log, keeps what was submitted, and moves the submitted bytes as they are. */
  lemma {:induction false} AloneGrows(sha: Hash, w: World, op: Op, l: Local, script: seq<Choice>, i: nat,
                                      submitted: Bytes)
    ensures var w' := Alone(sha, w, op, l, script, i).0;
            && w.log <= w'.log && w'.row.size == w.row.size && w'.row.digest == w.row.digest
            && (BytesOk(w, submitted) ==> BytesOk(w', submitted))
    decreases |script| - i
  {
    if i < |script| && !l.pc.Gone? {
      var (w1, l1) := Act(sha, w, op, l, script[i]);
      ActGrows(sha, w, op, l, script[i]);
      AloneGrows(sha, w1, op, l1, script, i + 1, submitted);
    }
  }

  /** Only a pending object is scanned. */
  lemma {:induction false} UnscannedAlone(sha: Hash, w: World, script: seq<Choice>)
    requires !w.row.state.PendingScan?
    ensures Alone(sha, w, Scan, BEGIN, script, 0).0 == w
  {
    if |script| >= 1 {
      var m := Move(Scanning, ToFirstCheck, ToEnd);
      var l := BEGIN.(pc := if script[0].ok then Reading(m) else Gone);
      assert Alone(sha, w, Scan, BEGIN, script, 0) == Alone(sha, w, Scan, l, script, 1);
      if |script| >= 2 && script[0].ok {
        assert Alone(sha, w, Scan, l, script, 1) == Alone(sha, w, Scan, l.(pc := Gone), script, 2);
      }
    }
  }

  /** Nothing raises. */
  predicate Calm(script: seq<Choice>) {
    forall i :: 0 <= i < |script| ==> script[i].ok
  }

  /** One step of a run that nothing disturbs. */
  lemma {:induction false} Forward(sha: Hash, w: World, op: Op, l: Local, script: seq<Choice>, i: nat, w': World,
                                   l': Local)
    requires i < |script| && !l.pc.Gone? && script[i].ok && Proceed(sha, w, op, l, script[i]) == (w', l')
    ensures Alone(sha, w, op, l, script, i) == Alone(sha, w', op, l', script, i + 1)
  {
  }

  /** A transition whose compare-and-swap cannot fail. */
  lemma {:induction false} TransitionAlone(sha: Hash, w: World, op: Op, l: Local, m: Move, script: seq<Choice>, i: nat)
    requires l.pc == Reading(m) && Allowed(w.row.state, m.to) && i + 2 <= |script| && Calm(script)
    ensures Alone(sha, w, op, l, script, i) ==
            Alone(sha, Swap(w, w.row.state, m.to, l.pass), op, l.(pc := Resume(m.next)), script, i + 2)
  {
    var from := w.row.state;
    Forward(sha, w, op, l, script, i, w, l.(pc := Swapping(from, m)));
    Forward(sha, w, op, l.(pc := Swapping(from, m)), script, i + 1,
            Swap(w, from, m.to, l.pass), l.(pc := Resume(m.next)));
  }

  /** The dead-letter handler quarantines an object whose scan is due or under way, and leaves any other alone. */
  lemma {:induction false} DeadLetterAlone(sha: Hash, w: World, script: seq<Choice>)
    requires |script| >= 6 && Calm(script)
    ensures var w' := Alone(sha, w, DeadLetter, BEGIN, script, 0).0;
            if w.row.state.PendingScan? || w.row.state.Scanning? then w'.row == w.row.(state := Quarantined)
            else w' == w
  {
    var m := Move(Scanning, ToDeadSecond, ToEnd);
    if w.row.state.PendingScan? {
      Forward(sha, w, DeadLetter, BEGIN, script, 0, w, BEGIN.(pc := Reading(m)));
      TransitionAlone(sha, w, DeadLetter, BEGIN.(pc := Reading(m)), m, script, 1);
      DeadSecondAlone(sha, Swap(w, PendingScan, Scanning, NO_PASS), script, 3);
    } else {
      Forward(sha, w, DeadLetter, BEGIN, script, 0, w, BEGIN.(pc := DeadSecond));
      DeadSecondAlone(sha, w, script, 1);
    }
  }

  lemma {:induction false} DeadSecondAlone(sha: Hash, w: World, script: seq<Choice>, i: nat)
    requires i + 3 <= |script| && Calm(script)
    ensures Alone(sha, w, DeadLetter, BEGIN.(pc := DeadSecond), script, i).0 ==
            if w.row.state.Scanning? then Swap(w, Scanning, Quarantined, NO_PASS) else w
  {
    var m := Move(Quarantined, ToEnd, ToEnd);
    if w.row.state.Scanning? {
      Forward(sha, w, DeadLetter, BEGIN.(pc := DeadSecond), script, i, w, BEGIN.(pc := Reading(m)));
      TransitionAlone(sha, w, DeadLetter, BEGIN.(pc := Reading(m)), m, script, i + 1);
    } else {
      Forward(sha, w, DeadLetter, BEGIN.(pc := DeadSecond), script, i, w, BEGIN.(pc := Gone));
    }
  }

  const BEGIN: Local := Local(Start, NO_PASS, Isolation)

  predicate CleanScript(script: seq<Choice>) {
    Calm(script) && forall i :: 0 <= i < |script| ==> AllClean(script[i].statuses)
  }

  /**
   An undisturbed clean pass over an untampered, known, unconflicted object releases it if and only if
   the released directory does not exist yet. Wherever the payload is, and whatever the row says about
   that, an existing directory ends in quarantine.
   */
  lemma {:induction false} CleanPassReleases(sha: Hash, s: System, script: seq<Choice>)
    requires Inv(sha, s) && !s.tampered && s.w.row.state.PendingScan? && s.w.runtime
    requires s.w.row.typeKnown && !s.w.row.typeConflict
    requires CleanScript(script) && |script| >= 13
    ensures var w' := Alone(sha, s.w, Scan, BEGIN, script, 0).0;
            w'.row.state == if s.w.outDir then Quarantined else Released
  {
    var w := Swap(s.w, PendingScan, Scanning, NO_PASS);
    BeginAlone(sha, s.w, script);
    if Intact(sha, w, w.row.place) {
      CleanChecksAlone(sha, w, script, 3);
    } else {
      MissingAlone(sha, w, script, 3);
    }
  }

  lemma {:induction false} MissingAlone(sha: Hash, w: World, script: seq<Choice>, i: nat)
    requires w.row.state.Scanning? && !Intact(sha, w, w.row.place) && |script| >= i + 3 && Calm(script)
    ensures Alone(sha, w, Scan, BEGIN.(pc := FirstCheck), script, i).0.row.state.Quarantined?
  {
    var l := MoveTo(BEGIN.(path := w.row.place), Quarantined);
    Forward(sha, w, Scan, BEGIN.(pc := FirstCheck), script, i, w, l);
    TransitionAlone(sha, w, Scan, l, l.pc.m, script, i + 1);
  }

  lemma {:induction false} BeginAlone(sha: Hash, w: World, script: seq<Choice>)
    requires w.row.state.PendingScan? && |script| >= 3 && Calm(script)
    ensures Alone(sha, w, Scan, BEGIN, script, 0)
         == Alone(sha, Swap(w, PendingScan, Scanning, NO_PASS), Scan, BEGIN.(pc := FirstCheck), script, 3)
  {
    var m := Move(Scanning, ToFirstCheck, ToEnd);
    Forward(sha, w, Scan, BEGIN, script, 0, w, BEGIN.(pc := Reading(m)));
    TransitionAlone(sha, w, Scan, BEGIN.(pc := Reading(m)), m, script, 1);
  }

  /** What a thread has established when it comes to the release. */
  function Checked(w: World, statuses: seq<Status>): Local {
    Local(MakeDir, Pass(true, Some(statuses), true), w.row.place)
  }

  /** From the first integrity check to the release. */
  lemma {:induction false} ChecksAlone(sha: Hash, w: World, script: seq<Choice>, i: nat)
    requires w.runtime && w.row.typeKnown && !w.row.typeConflict && Intact(sha, w, w.row.place)
    requires CleanScript(script) && |script| >= i + 3
    ensures Alone(sha, w, Scan, BEGIN.(pc := FirstCheck), script, i) ==
            Alone(sha, w, Scan, Checked(w, script[i + 1].statuses), script, i + 3)
  {
    var l1 := Local(RunScanners, NO_PASS.(first := true), w.row.place);
    var l2 := l1.(pass := l1.pass.(statuses := Some(script[i + 1].statuses)), pc := SecondCheck);
    assert AllClean(script[i + 1].statuses) && !AnyInfected(script[i + 1].statuses);
    Forward(sha, w, Scan, BEGIN.(pc := FirstCheck), script, i, w, l1);
    Forward(sha, w, Scan, l1, script, i + 1, w, l2);
    Forward(sha, w, Scan, l2, script, i + 2, w, Checked(w, script[i + 1].statuses));
  }

  lemma {:induction false} CleanChecksAlone(sha: Hash, w: World, script: seq<Choice>, i: nat)
    requires w.row.state.Scanning? && w.runtime && w.row.typeKnown && !w.row.typeConflict
    requires Intact(sha, w, w.row.place) && (!w.outDir ==> w.row.place.Isolation?)
    requires CleanScript(script) && |script| >= i + 10
    ensures var w' := Alone(sha, w, Scan, BEGIN.(pc := FirstCheck), script, i).0;
            w'.row.state == if w.outDir then Quarantined else Released
  {
    var l := Checked(w, script[i + 1].statuses);
    ChecksAlone(sha, w, script, i);
    if w.outDir {
      Forward(sha, w, Scan, l, script, i + 3, w, l.(pc := Failing));
      FailingAlone(sha, w, l, script, i + 4);
    } else {
      Forward(sha, w, Scan, l, script, i + 3, w.(outDir := true), l.(pc := MoveFile));
      MoveAlone(sha, w.(outDir := true), l, script, i + 4);
    }
  }

  lemma {:induction false} FailingAlone(sha: Hash, w: World, l: Local, script: seq<Choice>, i: nat)
    requires w.row.state.Scanning? && |script| >= i + 3 && forall k :: i <= k < |script| ==> script[k].ok
    ensures Alone(sha, w, Scan, l.(pc := Failing), script, i) ==
            (Swap(w, Scanning, Quarantined, l.pass), l.(pc := Gone))
  {
    var m := Move(Quarantined, ToEnd, ToEnd);
    var w1 := Swap(w, Scanning, Quarantined, l.pass);
    Forward(sha, w, Scan, l.(pc := Failing), script, i, w, l.(pc := Reading(m)));
    Forward(sha, w, Scan, l.(pc := Reading(m)), script, i + 1, w, l.(pc := Swapping(Scanning, m)));
    Forward(sha, w, Scan, l.(pc := Swapping(Scanning, m)), script, i + 2, w1, l.(pc := Gone));
  }

  /** From the rename to the path update. */
  lemma {:induction false} MovedAlone(sha: Hash, w: World, l: Local, script: seq<Choice>, i: nat)
    requires w.iso.Some? && w.outDir && l.path.Isolation? && |script| >= i + 2
    requires script[i].ok && script[i + 1].ok
    ensures Alone(sha, w, Scan, l.(pc := MoveFile), script, i) ==
            Alone(sha, w.(out := w.iso, iso := None), Scan, l.(pc := SavePath), script, i + 2)
  {
    var w1 := w.(out := w.iso, iso := None);
    assert w1.(iso := None) == w1;
    Forward(sha, w, Scan, l.(pc := MoveFile), script, i, w1, l.(pc := DropSource));
    Forward(sha, w1, Scan, l.(pc := DropSource), script, i + 1, w1, l.(pc := SavePath));
  }

  /** The released object: the payload moved, its path recorded, its file sealed. */
  function Delivered(w: World, pass: Pass): World
    requires w.iso.Some?
  {
    w.(row := w.row.(state := Released, place := ReleasedDir), iso := None, outDir := true,
       out := Some(File(w.iso.value.bytes, true)), log := w.log + [Changed(w.row.state, Released, pass)])
  }

  lemma {:induction false} MoveAlone(sha: Hash, w: World, l: Local, script: seq<Choice>, i: nat)
    requires w.row.state.Scanning? && w.iso.Some? && w.outDir && l.path.Isolation? && |script| >= i + 6
    requires Calm(script)
    ensures Alone(sha, w, Scan, l.(pc := MoveFile), script, i) == (Delivered(w, l.pass), l.(pc := Gone))
  {
    var w1 := w.(out := w.iso, iso := None);
    var w2 := w1.(row := w1.row.(place := ReleasedDir));
    MovedAlone(sha, w, l, script, i);
    Forward(sha, w1, Scan, l.(pc := SavePath), script, i + 2, w2, l.(pc := Seal));
    SealAlone(sha, w2, l, script, i + 3);
  }

  lemma {:induction false} SealAlone(sha: Hash, w: World, l: Local, script: seq<Choice>, i: nat)
    requires w.row.state.Scanning? && w.out.Some? && |script| >= i + 3 && Calm(script)
    ensures Alone(sha, w, Scan, l.(pc := Seal), script, i) ==
            (Swap(w.(out := Some(w.out.value.(sealed := true))), Scanning, Released, l.pass), l.(pc := Gone))
  {
    var w1 := w.(out := Some(w.out.value.(sealed := true)));
    Forward(sha, w, Scan, l.(pc := Seal), script, i, w1, MoveTo(l, Released));
    TransitionAlone(sha, w1, Scan, MoveTo(l, Released), MoveTo(l, Released).pc.m, script, i + 1);
  }

  /** No thread is between its mkdir and its release. */
  ghost predicate Idle(pc: Pc) {
    match pc
    case Reading(m) => !m.to.Released?
    case Swapping(_, m) => !m.to.Released?
    case MoveFile => false
    case DropSource => false
    case SavePath => false
    case Seal => false
    case _ => true
  }

  /** The released directory exists, with or without the payload, and nobody is on the way to a release. */
  ghost predicate Stuck(s: System) {
    || s.w.row.state.Expired?
    || (&& s.w.outDir && !s.w.row.state.Released?
        && forall t :: t in s.threads ==> Idle(s.threads[t].local.pc))
  }

  lemma ActStuck(sha: Hash, w: World, op: Op, l: Local, c: Choice)
    requires WorldOk(w) && LocalOk(w, l) && w.outDir && !w.row.state.Released? && Idle(l.pc)
    ensures var (w', l') := Act(sha, w, op, l, c);
            w'.row.state.Expired? || (w'.outDir && !w'.row.state.Released? && Idle(l'.pc))
  {
    if Raises(l, c) {
      RaisedIdle(l);
    } else if InRelease(l.pc) {
      assert l.pc.MakeDir?;
    } else if !InScan(l.pc) {
      CommonStuck(w, op, l);
    }
  }

  lemma RaisedIdle(l: Local)
    ensures Idle(Raised(l).pc)
  {
  }

  lemma CommonStuck(w: World, op: Op, l: Local)
    requires WorldOk(w) && LocalOk(w, l) && w.outDir && !w.row.state.Released? && Idle(l.pc)
    requires !InScan(l.pc) && !InRelease(l.pc)
    ensures var (w', l') := CommonStep(w, op, l);
            w'.row.state.Expired? || (w'.outDir && !w'.row.state.Released? && Idle(l'.pc))
  {
  }

  /**
   A crash between the mkdir of the released directory and the move leaves the directory empty; a crash
   or a timeout after the move leaves the payload in it. From then on no rescan, retry or restart ever
   releases the object.
   */
  lemma {:induction false} OrphanDirectoryBlocksRelease(sha: Hash, s: System, events: seq<Event>)
    requires Inv(sha, s) && Stuck(s)
    ensures !Run(sha, s, events).w.row.state.Released?
    decreases |events|
  {
    if events != [] {
      var e := events[0];
      NextKeepsInv(sha, s, e);
      if e.Step? && e.t in s.threads {
        ActKeeps(sha, s.w, s.threads[e.t].op, s.threads[e.t].local, e.c);
        if !s.w.row.state.Expired? {
          ActStuck(sha, s.w, s.threads[e.t].op, s.threads[e.t].local, e.c);
        }
      }
      OrphanDirectoryBlocksRelease(sha, Next(sha, s, e), events[1..]);
    }
  }
}
