/**
 The startup check and the release of one inbound object, over every untampered run in which the
 service goes on only after a crash that the check accepts: when the check refuses, and when an
 existing directory keeps an object from ever being released.
 */
module InboundGates {
  import opened Basics
  import opened Inbound

  /** Nobody touches the payload, and after a crash the service is only running if the check let it start. */
  predicate Lives(sha: Hash, production: bool, s: System, events: seq<Event>)
    decreases |events|
  {
    events == [] ||
    (&& !events[0].Tamper? && (events[0].Crash? ==> HardenAccepts(sha, s.w, production))
     && Lives(sha, production, Next(sha, s, events[0]), events[1..]))
  }

  predicate Unsaved(l: Local) {
    l.pc.DropSource? || l.pc.SavePath?
  }

  predicate Purges(l: Local, place: Place) {
    (l.pc.PurgeFile? || l.pc.PurgeRow?) && l.path == place
  }

  predicate Unlinked(l: Local, place: Place) {
    l.pc.PurgeRow? && l.path == place
  }

  /**
   A thread in one of the crash windows of the place the row names: between the rename and the path
   update, between that and the seal (production), between the unlink of a purge and its path update.
   */
  predicate InWindow(w: World, l: Local, production: bool) {
    match w.row.place
    case Isolation => Unsaved(l) || Unlinked(l, Isolation)
    case ReleasedDir => Unlinked(l, ReleasedDir) || (production && l.pc.Seal? && w.out.Some?)
    case Purged => false
  }

  /** The step raises inside a window: it leaves the window open and the thread goes elsewhere. */
  predicate Leaves(w: World, l: Local, c: Choice, production: bool) {
    Raises(l, c) && InWindow(w, l, production)
  }

  /** The step succeeds in bringing row and file together again. */
  predicate Mends(w: World, l: Local, c: Choice) {
    c.ok && (l.pc.SavePath? || l.pc.PurgeRow? || (l.pc.Seal? && w.row.place.ReleasedDir? && w.out.Some?))
  }

  predicate After(w: World, l: Local, c: Choice, production: bool, stranded: bool) {
    Leaves(w, l, c, production) || (stranded && !Mends(w, l, c))
  }

  /** An exception has left a window open and nothing has mended it since. */
  predicate NextStranded(s: System, e: Event, production: bool, stranded: bool) {
    if e.Step? && e.t in s.threads then After(s.w, s.threads[e.t].local, e.c, production, stranded) else stranded
  }

  predicate Stranded(sha: Hash, s: System, events: seq<Event>, production: bool, before: bool)
    decreases |events|
  {
    if events == [] then before
    else Stranded(sha, Next(sha, s, events[0]), events[1..], production, NextStranded(s, events[0], production, before))
  }

  ghost predicate Explained(sha: Hash, s: System, production: bool, stranded: bool) {
    || HardenAccepts(sha, s.w, production)
    || stranded
    || exists t :: t in s.threads && InWindow(s.w, s.threads[t].local, production)
  }

  predicate FilesGate(w: World) {
    w.row.place.ReleasedDir? || w.out.Some? ==> w.iso.None?
  }

  predicate ThreadGate(w: World, l: Local) {
    && (Unsaved(l) || l.pc.Seal? ==> w.iso.None? && (w.out.Some? ==> !w.out.value.sealed))
    && (Unsaved(l) ==> w.out.Some? && !w.row.place.ReleasedDir?)
    && (Purges(l, ReleasedDir) ==> w.iso.None?)
    && (Unlinked(l, Isolation) ==> w.iso.None?)
    && (Unlinked(l, ReleasedDir) ==> w.out.None?)
  }

  /** One payload, so one thread past its rename; the released file is not purged before the row names it. */
  predicate Apart(l: Local, l': Local) {
    && !((Unsaved(l) || l.pc.Seal?) && (Unsaved(l') || l'.pc.Seal?))
    && !(Unsaved(l) && Purges(l', ReleasedDir))
    && !(Unsaved(l') && Purges(l, ReleasedDir))
  }

  ghost predicate Gates(sha: Hash, s: System, production: bool, stranded: bool) {
    && Inv(sha, s) && !s.tampered && FilesGate(s.w)
    && (forall t :: t in s.threads ==> ThreadGate(s.w, s.threads[t].local))
    && (forall t, u :: t in s.threads && u in s.threads && t != u ==> Apart(s.threads[t].local, s.threads[u].local))
    && Explained(sha, s, production, stranded)
    && (stranded ==> !HardenAccepts(sha, s.w, production))
  }

  /** What a step may do to the files and the path, by its program counter. */
  ghost predicate Effect(w: World, l: Local, w': World, l': Local) {
    && FilesGate(w') && ThreadGate(w', l')
    && (l.pc.MoveFile? || l.pc.SavePath? || l.pc.Seal? || l.pc.PurgeFile? || l.pc.PurgeRow? ||
        (w'.iso == w.iso && w'.out == w.out && w'.row.place == w.row.place))
    && (Unsaved(l') || l'.pc.Seal? ==> Unsaved(l) || l.pc.Seal? || (l.pc.MoveFile? && w.iso.Some?))
    && (Unsaved(l') ==> Unsaved(l) || l.pc.MoveFile?)
    && (Purges(l', ReleasedDir) ==> Purges(l, ReleasedDir) || w.row.place.ReleasedDir?)
  }

  ghost predicate Ready(w: World, l: Local) {
    ThreadGate(w, l) && FilesGate(w) && (w.iso.Some? ==> !w.iso.value.sealed)
  }

  lemma ScanEffect(sha: Hash, w: World, l: Local, c: Choice)
    requires Ready(w, l) && InScan(l.pc)
    ensures Effect(w, l, w, ScanStep(sha, w, l, c))
  {
  }

  lemma ReleaseEffect(w: World, l: Local)
    requires Ready(w, l) && InRelease(l.pc)
    ensures var (w', l') := ReleaseStep(w, l); Effect(w, l, w', l')
  {
  }

  lemma CommonEffect(w: World, op: Op, l: Local)
    requires Ready(w, l) && !InScan(l.pc) && !InRelease(l.pc)
    ensures var (w', l') := CommonStep(w, op, l); Effect(w, l, w', l')
  {
  }

  lemma StepEffect(sha: Hash, w: World, op: Op, l: Local, c: Choice)
    requires Ready(w, l)
    ensures var (w', l') := Act(sha, w, op, l, c); Effect(w, l, w', l')
  {
    if Raises(l, c) {
    } else if InScan(l.pc) {
      ScanEffect(sha, w, l, c);
    } else if InRelease(l.pc) {
      ReleaseEffect(w, l);
    } else {
      CommonEffect(w, op, l);
    }
  }

  lemma OthersKeepGate(sha: Hash, w: World, op: Op, l: Local, c: Choice, other: Local)
    requires ThreadGate(w, l) && ThreadGate(w, other) && Apart(l, other) && FilesGate(w)
    ensures ThreadGate(Act(sha, w, op, l, c).0, other)
  {
  }

  lemma OthersStayApart(sha: Hash, w: World, op: Op, l: Local, c: Choice, other: Local)
    requires Ready(w, l) && ThreadGate(w, other) && Apart(l, other)
    ensures Apart(Act(sha, w, op, l, c).1, other)
  {
    StepEffect(sha, w, op, l, c);
  }

  /** A refusal after the step is explained by this thread, or by something else that explained it before. */
  ghost predicate Explains(sha: Hash, w: World, l: Local, w': World, l': Local, production: bool) {
    !HardenAccepts(sha, w', production) ==>
      || InWindow(w', l', production)
      || (&& w'.row.place == w.row.place && (w.row.place.ReleasedDir? && w.out.Some? ==> w'.out.Some?)
          && !HardenAccepts(sha, w, production) && !InWindow(w, l, production))
  }

  lemma ReleaseExplains(sha: Hash, w: World, l: Local, production: bool)
    requires Ready(w, l) && Unmixed(sha, w) && InRelease(l.pc)
    ensures var (w', l') := ReleaseStep(w, l); Explains(sha, w, l, w', l', production)
  {
  }

  lemma CommonExplains(sha: Hash, w: World, op: Op, l: Local, production: bool)
    requires Ready(w, l) && Unmixed(sha, w) && !InScan(l.pc) && !InRelease(l.pc)
    ensures var (w', l') := CommonStep(w, op, l); Explains(sha, w, l, w', l', production)
  {
  }

  lemma StepExplains(sha: Hash, w: World, op: Op, l: Local, c: Choice, production: bool)
    requires Ready(w, l) && Unmixed(sha, w) && !Leaves(w, l, c, production)
    ensures var (w', l') := Act(sha, w, op, l, c); Explains(sha, w, l, w', l', production)
  {
    if Raises(l, c) {
    } else if InRelease(l.pc) {
      ReleaseExplains(sha, w, l, production);
    } else if !InScan(l.pc) {
      CommonExplains(sha, w, op, l, production);
    }
  }

  /** Every payload file holds the submitted bytes. */
  predicate Unmixed(sha: Hash, w: World) {
    && (w.iso.Some? ==> Matches(sha, w.row, w.iso))
    && (w.out.Some? ==> Matches(sha, w.row, w.out))
  }

  /** A step that does not mend leaves a refused row refused. */
  lemma ReleaseKeepsRefusal(sha: Hash, w: World, l: Local, c: Choice, production: bool)
    requires Ready(w, l) && Unmixed(sha, w) && InRelease(l.pc) && !Mends(w, l, c) && c.ok
    requires !HardenAccepts(sha, w, production)
    ensures !HardenAccepts(sha, ReleaseStep(w, l).0, production)
  {
  }

  lemma CommonKeepsRefusal(sha: Hash, w: World, op: Op, l: Local, production: bool)
    requires Ready(w, l) && Unmixed(sha, w) && !InScan(l.pc) && !InRelease(l.pc) && !l.pc.PurgeRow?
    requires !HardenAccepts(sha, w, production)
    ensures !HardenAccepts(sha, CommonStep(w, op, l).0, production)
  {
  }

  lemma SourceGoneKeepsRefusal(sha: Hash, w: World, l: Local, production: bool)
    requires Ready(w, l) && l.pc.DropSource? && !HardenAccepts(sha, w, production)
    ensures !HardenAccepts(sha, ReleaseStep(w, l).0, production)
  {
  }

  lemma RefusalStays(sha: Hash, w: World, op: Op, l: Local, c: Choice, production: bool)
    requires Ready(w, l) && Unmixed(sha, w) && !HardenAccepts(sha, w, production) && !Mends(w, l, c)
    ensures !HardenAccepts(sha, Act(sha, w, op, l, c).0, production)
  {
    if Raises(l, c) || InScan(l.pc) || l.pc.Gone? {
    } else if l.pc.DropSource? {
      SourceGoneKeepsRefusal(sha, w, l, production);
    } else if InRelease(l.pc) {
      ReleaseKeepsRefusal(sha, w, l, c, production);
    } else {
      CommonKeepsRefusal(sha, w, op, l, production);
    }
  }

  lemma WindowIsRefused(sha: Hash, w: World, l: Local, production: bool)
    requires ThreadGate(w, l) && InWindow(w, l, production)
    ensures !HardenAccepts(sha, w, production)
  {
  }

  lemma InWindowStays(w: World, w': World, l: Local, production: bool)
    requires InWindow(w, l, production) && w'.row.place == w.row.place
    requires w.row.place.ReleasedDir? && w.out.Some? ==> w'.out.Some?
    ensures InWindow(w', l, production)
  {
  }

  lemma StepKeepsThreadGates(sha: Hash, s: System, t: ThreadId, c: Choice, production: bool, stranded: bool)
    requires Gates(sha, s, production, stranded) && t in s.threads
    ensures var s' := Next(sha, s, Step(t, c));
            && FilesGate(s'.w)
            && (forall u :: u in s'.threads ==> ThreadGate(s'.w, s'.threads[u].local))
            && (forall u, v :: u in s'.threads && v in s'.threads && u != v ==>
                  Apart(s'.threads[u].local, s'.threads[v].local))
  {
    var s' := Next(sha, s, Step(t, c));
    var op, l := s.threads[t].op, s.threads[t].local;
    StepEffect(sha, s.w, op, l, c);
    forall u | u in s'.threads ensures ThreadGate(s'.w, s'.threads[u].local) {
      if u != t {
        OthersKeepGate(sha, s.w, op, l, c, s.threads[u].local);
      }
    }
    forall u, v | u in s'.threads && v in s'.threads && u != v
      ensures Apart(s'.threads[u].local, s'.threads[v].local)
    {
      if u == t {
        OthersStayApart(sha, s.w, op, l, c, s.threads[v].local);
      } else if v == t {
        OthersStayApart(sha, s.w, op, l, c, s.threads[u].local);
      }
    }
  }

  lemma StepIsExplained(sha: Hash, s: System, t: ThreadId, c: Choice, production: bool, stranded: bool)
    requires Gates(sha, s, production, stranded) && t in s.threads
    ensures var s' := Next(sha, s, Step(t, c));
            var stranded' := After(s.w, s.threads[t].local, c, production, stranded);
            Explained(sha, s', production, stranded') && (stranded' ==> !HardenAccepts(sha, s'.w, production))
  {
    var s' := Next(sha, s, Step(t, c));
    var op, l := s.threads[t].op, s.threads[t].local;
    if Leaves(s.w, l, c, production) {
      WindowIsRefused(sha, s.w, l, production);
      return;
    }
    if stranded && !Mends(s.w, l, c) {
      RefusalStays(sha, s.w, op, l, c, production);
      return;
    }
    StepExplains(sha, s.w, op, l, c, production);
    if !HardenAccepts(sha, s'.w, production) && !InWindow(s'.w, s'.threads[t].local, production) {
      if stranded {
        MendedIsAccepted(sha, s.w, op, l, c, production);
      }
      var u :| u in s.threads && InWindow(s.w, s.threads[u].local, production);
      InWindowStays(s.w, s'.w, s.threads[u].local, production);
      assert s'.threads[u] == s.threads[u];
    }
  }

  /** What mends a stranded row ends in no refusal but that of a window of its own. */
  lemma MendedIsAccepted(sha: Hash, w: World, op: Op, l: Local, c: Choice, production: bool)
    requires Ready(w, l) && Unmixed(sha, w) && Mends(w, l, c)
    ensures var (w', l') := Act(sha, w, op, l, c); HardenAccepts(sha, w', production) || InWindow(w', l', production)
  {
  }

  lemma StepKeepsGates(sha: Hash, s: System, t: ThreadId, c: Choice, production: bool, stranded: bool)
    requires Gates(sha, s, production, stranded) && t in s.threads
    ensures Gates(sha, Next(sha, s, Step(t, c)), production, NextStranded(s, Step(t, c), production, stranded))
  {
    NextKeepsInv(sha, s, Step(t, c));
    StepKeepsThreadGates(sha, s, t, c, production, stranded);
    StepIsExplained(sha, s, t, c, production, stranded);
  }

  lemma NextKeepsGates(sha: Hash, s: System, e: Event, production: bool, stranded: bool)
    requires Gates(sha, s, production, stranded) && !e.Tamper? && (e.Crash? ==> HardenAccepts(sha, s.w, production))
    ensures Gates(sha, Next(sha, s, e), production, NextStranded(s, e, production, stranded))
  {
    if e.Step? {
      if e.t in s.threads {
        StepKeepsGates(sha, s, e.t, e.c, production, stranded);
      }
    } else {
      EventKeepsGates(sha, s, e, production, stranded);
    }
  }

  lemma EventKeepsGates(sha: Hash, s: System, e: Event, production: bool, stranded: bool)
    requires Gates(sha, s, production, stranded) && (e.Spawn? || e.SetRuntime? || e.Crash?)
    requires e.Crash? ==> HardenAccepts(sha, s.w, production)
    ensures Gates(sha, Next(sha, s, e), production, stranded)
  {
    var s' := Next(sha, s, e);
    NextKeepsInv(sha, s, e);
    EventKeepsThreads(sha, s, e);
    if !HardenAccepts(sha, s'.w, production) && !stranded {
      var u :| u in s.threads && InWindow(s.w, s.threads[u].local, production);
      assert u in s'.threads && s'.threads[u] == s.threads[u];
    }
  }

  lemma EventKeepsThreads(sha: Hash, s: System, e: Event)
    requires (forall t :: t in s.threads ==> ThreadGate(s.w, s.threads[t].local)) && FilesGate(s.w)
    requires forall t, u :: t in s.threads && u in s.threads && t != u ==> Apart(s.threads[t].local, s.threads[u].local)
    requires e.Spawn? || e.SetRuntime? || e.Crash?
    ensures var s' := Next(sha, s, e);
            && FilesGate(s'.w)
            && (forall t :: t in s'.threads ==> ThreadGate(s'.w, s'.threads[t].local))
            && (forall t, u :: t in s'.threads && u in s'.threads && t != u ==>
                  Apart(s'.threads[t].local, s'.threads[u].local))
  {
  }

  lemma {:induction false} RunKeepsGates(sha: Hash, s: System, events: seq<Event>, production: bool, stranded: bool)
    requires Gates(sha, s, production, stranded) && Lives(sha, production, s, events)
    ensures Gates(sha, Run(sha, s, events), production, Stranded(sha, s, events, production, stranded))
    decreases |events|
  {
    if events != [] {
      NextKeepsGates(sha, s, events[0], production, stranded);
      RunKeepsGates(sha, Next(sha, s, events[0]), events[1..], production,
                    NextStranded(s, events[0], production, stranded));
    }
  }

  /**
   The startup check after a crash, in every reachable state, expired objects included: it refuses exactly when
   the crash hit a thread in a window, or a thread has left one by an exception and nothing has mended it since.
   */
  lemma {:induction false} StartupRefusedIffInWindow(sha: Hash, bytes: Bytes, known: bool, conflict: bool,
                                                     events: seq<Event>, production: bool)
    requires Lives(sha, production, Submitted(sha, bytes, known, conflict), events)
    ensures var s0 := Submitted(sha, bytes, known, conflict);
            var s := Run(sha, s0, events);
            !HardenAccepts(sha, Next(sha, s, Crash).w, production) <==>
            || Stranded(sha, s0, events, production, false)
            || exists t :: t in s.threads && InWindow(s.w, s.threads[t].local, production)
  {
    var s0 := Submitted(sha, bytes, known, conflict);
    var s := Run(sha, s0, events);
    SubmittedOk(sha, bytes, known, conflict);
    RunKeepsGates(sha, s0, events, production, false);
    if t :| t in s.threads && InWindow(s.w, s.threads[t].local, production) {
      WindowIsRefused(sha, s.w, s.threads[t].local, production);
    }
  }

  /**
   The startup check finds a rewritten payload: with the file at the row's place replaced it accepts what it accepted
   before exactly when the new bytes have the recorded length and hash.
   */
  lemma RewrittenIsRefused(sha: Hash, s: System, bytes: Bytes, production: bool)
    requires HardenAccepts(sha, s.w, production) && !s.w.row.place.Purged?
    ensures var w' := Next(sha, s, Tamper(s.w.row.place, bytes)).w;
            HardenAccepts(sha, w', production) <==> |bytes| == s.w.row.size && sha(bytes) == s.w.row.digest
  {
  }

  // ------------------------------------------------------------------------------------------
  // The windows of one release, step by step
  // ------------------------------------------------------------------------------------------

  predicate SameFiles(w: World, w': World) {
    && w'.iso == w.iso && w'.out == w.out && w'.row.place == w.row.place
    && w'.row.size == w.row.size && w'.row.digest == w.row.digest
  }

  lemma {:induction false} EndFiles(sha: Hash, w: World, l: Local, script: seq<Choice>, i: nat)
    requires w.row.state.Scanning? && l.pc == Reading(Move(Released, ToEnd, ToFailing)) && Calm(script)
    ensures SameFiles(w, Alone(sha, w, Scan, l, script, i).0)
  {
    var m := l.pc.m;
    if i < |script| {
      Forward(sha, w, Scan, l, script, i, w, l.(pc := Swapping(Scanning, m)));
      if i + 1 < |script| {
        Forward(sha, w, Scan, l.(pc := Swapping(Scanning, m)), script, i + 1,
                Swap(w, Scanning, Released, l.pass), l.(pc := Gone));
      }
    }
  }

  lemma {:induction false} SealFiles(sha: Hash, w: World, l: Local, script: seq<Choice>, i: nat)
    requires w.row.state.Scanning? && w.out.Some? && l.pc.Seal? && Calm(script)
    ensures var sealed := w.(out := Some(w.out.value.(sealed := true)));
            SameFiles(if i < |script| then sealed else w, Alone(sha, w, Scan, l, script, i).0)
  {
    var sealed := w.(out := Some(w.out.value.(sealed := true)));
    if i < |script| {
      Forward(sha, w, Scan, l, script, i, sealed, MoveTo(l, Released));
      EndFiles(sha, sealed, MoveTo(l, Released), script, i + 1);
    }
  }

  /** The files after n steps of an undisturbed clean pass into a new directory. */
  function AfterPass(w: World, n: nat): World
    requires w.iso.Some?
  {
    var moved := w.(out := w.iso, iso := None);
    var saved := moved.(row := w.row.(place := ReleasedDir));
    if n <= 7 then w else if n <= 9 then moved else if n == 10 then saved
    else saved.(out := Some(w.iso.value.(sealed := true)))
  }

  lemma {:induction false} MoveFiles(sha: Hash, w: World, l: Local, script: seq<Choice>, i: nat)
    requires w.row.state.Scanning? && w.iso.Some? && w.outDir && w.row.place.Isolation?
    requires l.pc.MoveFile? && l.path.Isolation? && i <= |script| && Calm(script)
    ensures SameFiles(AfterPass(w, |script| - i + 7), Alone(sha, w, Scan, l, script, i).0)
  {
    var moved := w.(out := w.iso, iso := None);
    var saved := moved.(row := w.row.(place := ReleasedDir));
    if i + 1 < |script| {
      MovedAlone(sha, w, l, script, i);
      if i + 2 < |script| {
        Forward(sha, moved, Scan, l.(pc := SavePath), script, i + 2, saved, l.(pc := Seal));
        SealFiles(sha, saved, l.(pc := Seal), script, i + 3);
      }
    } else if i < |script| {
      Forward(sha, w, Scan, l, script, i, moved, l.(pc := DropSource));
    }
  }

  lemma {:induction false} CheckFiles(sha: Hash, w: World, script: seq<Choice>, i: nat)
    requires w.row.state.Scanning? && w.runtime && w.row.typeKnown && !w.row.typeConflict
    requires w.row.place.Isolation? && Intact(sha, w, Isolation) && !w.outDir
    requires CleanScript(script) && i <= |script|
    ensures SameFiles(AfterPass(w, |script| - i + 3), Alone(sha, w, Scan, BEGIN.(pc := FirstCheck), script, i).0)
  {
    if i + 3 <= |script| {
      var l := Checked(w, script[i + 1].statuses);
      ChecksAlone(sha, w, script, i);
      if i + 3 < |script| {
        Forward(sha, w, Scan, l, script, i + 3, w.(outDir := true), l.(pc := MoveFile));
        MoveFiles(sha, w.(outDir := true), l.(pc := MoveFile), script, i + 4);
      }
    } else if i < |script| {
      var l1 := BEGIN.(pass := NO_PASS.(first := true), pc := RunScanners);
      Forward(sha, w, Scan, BEGIN.(pc := FirstCheck), script, i, w, l1);
      if i + 1 < |script| {
        assert AllClean(script[i + 1].statuses) && !AnyInfected(script[i + 1].statuses);
        Forward(sha, w, Scan, l1, script, i + 1, w,
                l1.(pass := l1.pass.(statuses := Some(script[i + 1].statuses)), pc := SecondCheck));
      }
    }
  }

  /**
   The crash window of a release. After a crash behind step k of an undisturbed clean pass the service
   starts again exactly when the payload was not yet moved or its new path was already committed, and in
   production also sealed.
   */
  lemma {:induction false} ReleaseCrashWindow(sha: Hash, s: System, script: seq<Choice>, production: bool)
    requires Inv(sha, s) && !s.tampered && s.w.row.state.PendingScan? && s.w.runtime && !s.w.outDir
    requires s.w.row.typeKnown && !s.w.row.typeConflict && CleanScript(script)
    ensures var w' := Alone(sha, s.w, Scan, BEGIN, script, 0).0;
            HardenAccepts(sha, w', production) <==>
            |script| <= 7 || (if production then |script| >= 11 else |script| >= 10)
  {
    if |script| >= 3 {
      BeginAlone(sha, s.w, script);
      CheckFiles(sha, Swap(s.w, PendingScan, Scanning, NO_PASS), script, 3);
    } else {
      FirstFiles(sha, s.w, script);
    }
  }

  lemma {:induction false} FirstFiles(sha: Hash, w: World, script: seq<Choice>)
    requires w.row.state.PendingScan? && |script| <= 2 && Calm(script)
    ensures Alone(sha, w, Scan, BEGIN, script, 0).0 == w
  {
    var m := Move(Scanning, ToFirstCheck, ToEnd);
    if |script| > 0 {
      Forward(sha, w, Scan, BEGIN, script, 0, w, BEGIN.(pc := Reading(m)));
      if |script| > 1 {
        Forward(sha, w, Scan, BEGIN.(pc := Reading(m)), script, 1, w, BEGIN.(pc := Swapping(PendingScan, m)));
      }
    }
  }

  // ------------------------------------------------------------------------------------------
  // Runs into a directory that blocks the release
  // ------------------------------------------------------------------------------------------

  const GOOD: Choice := Choice(true, [])

  function Script(n: nat): (script: seq<Choice>)
    ensures |script| == n && CleanScript(script)
  {
    seq(n, i => GOOD)
  }

  lemma ScriptPrefix(n: nat)
    requires n >= 7
    ensures Script(n)[..7] == Script(7)
  {
  }

  const PASSED: Pass := Pass(true, Some([]), true)

  function ScanningOf(sha: Hash, bytes: Bytes): World {
    Swap(Submitted(sha, bytes, true, false).w, PendingScan, Scanning, NO_PASS)
  }

  /** From the submission to the rename; what happens afterwards is up to the rest of the script. */
  lemma {:induction false} ChecksPass(sha: Hash, bytes: Bytes, script: seq<Choice>)
    requires |script| >= 7 && script[..7] == Script(7)
    ensures Alone(sha, Submitted(sha, bytes, true, false).w, Scan, BEGIN, script, 0) ==
            Alone(sha, ScanningOf(sha, bytes).(outDir := true), Scan, Local(MoveFile, PASSED, Isolation), script, 7)
  {
    var w0, w := Submitted(sha, bytes, true, false).w, ScanningOf(sha, bytes);
    assert forall i :: 0 <= i < 7 ==> script[..7][i] == script[i] == GOOD;
    var m := Move(Scanning, ToFirstCheck, ToEnd);
    Forward(sha, w0, Scan, BEGIN, script, 0, w0, BEGIN.(pc := Reading(m)));
    Forward(sha, w0, Scan, BEGIN.(pc := Reading(m)), script, 1, w0, BEGIN.(pc := Swapping(PendingScan, m)));
    Forward(sha, w0, Scan, BEGIN.(pc := Swapping(PendingScan, m)), script, 2, w, BEGIN.(pc := FirstCheck));
    ScannersPass(sha, w, script);
  }

  lemma {:induction false} ScannersPass(sha: Hash, w: World, script: seq<Choice>)
    requires w.runtime && w.row.typeKnown && !w.row.typeConflict && w.row.place.Isolation? && Intact(sha, w, Isolation)
    requires |script| >= 7 && !w.outDir && forall i :: 0 <= i < 7 ==> script[i] == GOOD
    ensures Alone(sha, w, Scan, BEGIN.(pc := FirstCheck), script, 3) ==
            Alone(sha, w.(outDir := true), Scan, Local(MoveFile, PASSED, Isolation), script, 7)
  {
    var l1 := Local(RunScanners, NO_PASS.(first := true), Isolation);
    var l2 := Local(SecondCheck, PASSED.(second := false), Isolation);
    var l3 := Local(MakeDir, PASSED, Isolation);
    assert !AnyInfected([]);
    Forward(sha, w, Scan, BEGIN.(pc := FirstCheck), script, 3, w, l1);
    Forward(sha, w, Scan, l1, script, 4, w, l2);
    Forward(sha, w, Scan, l2, script, 5, w, l3);
    Forward(sha, w, Scan, l3, script, 6, w.(outDir := true), l3.(pc := MoveFile));
  }

  lemma {:induction false} MovesAndSeals(sha: Hash, w: World, script: seq<Choice>, i: nat)
    requires w.row.state.Scanning? && w.iso.Some? && w.outDir && |script| == i + 4 && Calm(script)
    ensures Alone(sha, w, Scan, Local(MoveFile, PASSED, Isolation), script, i) ==
            (w.(iso := None, out := Some(w.iso.value.(sealed := true)), row := w.row.(place := ReleasedDir)),
             MoveTo(Local(Seal, PASSED, Isolation), Released))
  {
    var moved := w.(out := w.iso, iso := None);
    var saved := moved.(row := w.row.(place := ReleasedDir));
    var sealed := saved.(out := Some(saved.out.value.(sealed := true)));
    var l := Local(MoveFile, PASSED, Isolation);
    MovedAlone(sha, w, l, script, i);
    Forward(sha, moved, Scan, l.(pc := SavePath), script, i + 2, saved, l.(pc := Seal));
    Forward(sha, saved, Scan, l.(pc := Seal), script, i + 3, sealed, MoveTo(l, Released));
  }

  function ScanCrashedAfter(n: nat): seq<Event> {
    [Spawn(0, Scan)] + Steps(0, Script(n), 0) + [Crash]
  }

  lemma CrashAfter(sha: Hash, bytes: Bytes, n: nat)
    ensures var s0 := Submitted(sha, bytes, true, false);
            Run(sha, s0, ScanCrashedAfter(n)) == s0.(w := Alone(sha, s0.w, Scan, BEGIN, Script(n), 0).0)
  {
    var s0 := Submitted(sha, bytes, true, false);
    var pass := [Spawn(0, Scan)] + Steps(0, Script(n), 0);
    assert ScanCrashedAfter(n) == pass + [Crash];
    RunAppend(sha, s0, pass, [Crash]);
    SpawnedAlone(sha, s0, 0, Scan, Script(n));
    var (w, l) := Alone(sha, s0.w, Scan, BEGIN, Script(n), 0);
    var s1 := s0.(w := w, threads := s0.threads[0 := Thread(Scan, l)]);
    assert Run(sha, s0, pass) == s1;
    CrashDrops(sha, s1);
    assert s1.(threads := map[]) == s0.(w := w);
  }

  lemma CrashDrops(sha: Hash, s: System)
    ensures Run(sha, s, [Crash]) == s.(threads := map[])
  {
    assert Run(sha, s, [Crash]) == Run(sha, Next(sha, s, Crash), [Crash][1..]);
  }

  /** A crash right after the mkdir leaves the empty directory; the startup check accepts it. */
  lemma EmptyDirectoryIsReachable(sha: Hash, bytes: Bytes, production: bool)
    ensures var s := Run(sha, Submitted(sha, bytes, true, false), ScanCrashedAfter(7));
            && !s.tampered && Stuck(s) && s.w.row.state.Scanning? && s.w.out.None?
            && HardenAccepts(sha, s.w, production)
  {
    CrashAfter(sha, bytes, 7);
    ScriptPrefix(7);
    ChecksPass(sha, bytes, Script(7));
  }

  /**
   A crash after the payload was moved, recorded and sealed leaves a scanning object; the startup check
   accepts it, and recovery quarantines it with its payload in the released directory.
   */
  lemma FilledDirectoryIsReachable(sha: Hash, bytes: Bytes, production: bool)
    ensures var s0 := Submitted(sha, bytes, true, false);
            var s1 := Run(sha, s0, ScanCrashedAfter(11));
            var s2 := Run(sha, s0, ScanCrashedAfter(11) + ([Spawn(1, Timeout)] + Steps(1, Script(3), 0)));
            && HardenAccepts(sha, s1.w, production) && !s2.tampered && Stuck(s2)
            && s2.w.row.state.Quarantined? && s2.w.row.place.ReleasedDir?
            && s2.w.out.Some? && s2.w.out.value.bytes == bytes
  {
    var s0 := Submitted(sha, bytes, true, false);
    SealedCrash(sha, bytes);
    RunAppend(sha, s0, ScanCrashedAfter(11), [Spawn(1, Timeout)] + Steps(1, Script(3), 0));
    RecoveryQuarantines(sha, Run(sha, s0, ScanCrashedAfter(11)));
  }

  lemma SealedCrash(sha: Hash, bytes: Bytes)
    ensures var w := Run(sha, Submitted(sha, bytes, true, false), ScanCrashedAfter(11)).w;
            && w.row.state.Scanning? && w.outDir && w.row.place.ReleasedDir? && w.out == Some(File(bytes, true))
            && w.row.size == |bytes| && w.row.digest == sha(bytes)
    ensures var s := Run(sha, Submitted(sha, bytes, true, false), ScanCrashedAfter(11));
            !s.tampered && s.threads == map[]
  {
    CrashAfter(sha, bytes, 11);
    ScriptPrefix(11);
    ChecksPass(sha, bytes, Script(11));
    MovesAndSeals(sha, ScanningOf(sha, bytes).(outDir := true), Script(11), 7);
  }

  lemma RecoveryQuarantines(sha: Hash, s: System)
    requires s.w.row.state.Scanning? && s.threads == map[] && s.w.outDir
    ensures var s' := Run(sha, s, [Spawn(1, Timeout)] + Steps(1, Script(3), 0));
            && Stuck(s') && s'.tampered == s.tampered && s'.w == Swap(s.w, Scanning, Quarantined, NO_PASS)
  {
    SpawnedAlone(sha, s, 1, Timeout, Script(3));
    TimeoutQuarantines(sha, s.w);
  }

  lemma TimeoutQuarantines(sha: Hash, w: World)
    requires w.row.state.Scanning?
    ensures Alone(sha, w, Timeout, BEGIN, Script(3), 0) ==
            (Swap(w, Scanning, Quarantined, NO_PASS), BEGIN.(pc := Gone))
  {
    var m, script := Move(Quarantined, ToEnd, ToEnd), Script(3);
    Forward(sha, w, Timeout, BEGIN, script, 0, w, BEGIN.(pc := Reading(m)));
    TransitionAlone(sha, w, Timeout, BEGIN.(pc := Reading(m)), m, script, 1);
  }

  function ExpiredAndUnlinked(): seq<Event> {
    ([Spawn(0, Expire)] + Steps(0, Script(3), 0)) + ([Spawn(1, Purge)] + Steps(1, Script(2), 0))
  }

  lemma ExpiryAlone(sha: Hash, w: World)
    requires w.row.state.PendingScan?
    ensures Alone(sha, w, Expire, BEGIN, Script(3), 0) == (Swap(w, PendingScan, Expired, NO_PASS), BEGIN.(pc := Gone))
  {
    var m, script := Move(Expired, ToEnd, ToEnd), Script(3);
    Forward(sha, w, Expire, BEGIN, script, 0, w, BEGIN.(pc := Reading(m)));
    TransitionAlone(sha, w, Expire, BEGIN.(pc := Reading(m)), m, script, 1);
  }

  lemma UnlinkAlone(sha: Hash, w: World)
    requires w.row.state.Expired? && w.row.place.Isolation?
    ensures Alone(sha, w, Purge, BEGIN, Script(2), 0) == (w.(iso := None), Local(PurgeRow, NO_PASS, Isolation))
  {
    var l := BEGIN.(pc := PurgeFile);
    Forward(sha, w, Purge, BEGIN, Script(2), 0, w, l);
    Forward(sha, w, Purge, l, Script(2), 1, w.(iso := None), l.(pc := PurgeRow));
  }

  /** Maintenance unlinks an expired payload before it clears the path: a crash in between is refused. */
  lemma PurgeWindowIsReachable(sha: Hash, bytes: Bytes, production: bool)
    ensures var s := Run(sha, Submitted(sha, bytes, true, false), ExpiredAndUnlinked());
            && !s.tampered && s.w.row.state.Expired? && s.w.row.place.Isolation?
            && !HardenAccepts(sha, Next(sha, s, Crash).w, production)
  {
    var s0 := Submitted(sha, bytes, true, false);
    var first := [Spawn(0, Expire)] + Steps(0, Script(3), 0);
    ExpiryAlone(sha, s0.w);
    SpawnedAlone(sha, s0, 0, Expire, Script(3));
    RunAppend(sha, s0, first, [Spawn(1, Purge)] + Steps(1, Script(2), 0));
    UnlinksAfter(sha, Run(sha, s0, first));
  }

  lemma UnlinksAfter(sha: Hash, s: System)
    requires s.w.row.state.Expired? && s.w.row.place.Isolation? && 1 !in s.threads
    ensures var s' := Run(sha, s, [Spawn(1, Purge)] + Steps(1, Script(2), 0));
            s'.w == s.w.(iso := None) && s'.tampered == s.tampered
  {
    SpawnedAlone(sha, s, 1, Purge, Script(2));
    UnlinkAlone(sha, s.w);
  }

  const BAD: Choice := Choice(false, [])

  /** A clean pass whose path update raises, and the handler that fails closed. */
  function PathUpdateRaises(): seq<Choice> {
    Script(9) + [BAD] + Script(3)
  }

  /**
   The path update of a release raises, for want of disk space or for a lock. The pass fails closed, nobody is in a
   window any more, nothing was tampered with, and yet the service refuses to start after the next crash.
   */
  lemma StrandedIsReachable(sha: Hash, bytes: Bytes, production: bool)
    ensures var s := Run(sha, Submitted(sha, bytes, true, false), [Spawn(0, Scan)] + Steps(0, PathUpdateRaises(), 0));
            && !s.tampered && s.w.row.state.Quarantined? && s.w.out.Some? && s.w.out.value.bytes == bytes
            && s.threads.Keys == {0} && s.threads[0].local.pc.Gone?
            && !HardenAccepts(sha, Next(sha, s, Crash).w, production)
  {
    SpawnedAlone(sha, Submitted(sha, bytes, true, false), 0, Scan, PathUpdateRaises());
    PassStrands(sha, bytes);
  }

  lemma PassStrands(sha: Hash, bytes: Bytes)
    ensures var w := ScanningOf(sha, bytes).(outDir := true);
            Alone(sha, Submitted(sha, bytes, true, false).w, Scan, BEGIN, PathUpdateRaises(), 0) ==
            (Swap(w.(out := w.iso, iso := None), Scanning, Quarantined, PASSED), Local(Gone, PASSED, Isolation))
  {
    assert PathUpdateRaises()[..7] == Script(7);
    ChecksPass(sha, bytes, PathUpdateRaises());
    PathUpdateFails(sha, ScanningOf(sha, bytes).(outDir := true), PathUpdateRaises());
  }

  lemma {:induction false} PathUpdateFails(sha: Hash, w: World, script: seq<Choice>)
    requires w.row.state.Scanning? && w.iso.Some? && w.outDir && script == PathUpdateRaises()
    ensures Alone(sha, w, Scan, Local(MoveFile, PASSED, Isolation), script, 7) ==
            (Swap(w.(out := w.iso, iso := None), Scanning, Quarantined, PASSED), Local(Gone, PASSED, Isolation))
  {
    var l, moved := Local(MoveFile, PASSED, Isolation), w.(out := w.iso, iso := None);
    assert script[7] == GOOD && script[8] == GOOD && script[9] == BAD;
    assert forall k :: 10 <= k < |script| ==> script[k] == GOOD;
    MovedAlone(sha, w, l, script, 7);
    assert Alone(sha, moved, Scan, l.(pc := SavePath), script, 9)
        == Alone(sha, moved, Scan, l.(pc := Failing), script, 10);
    FailingAlone(sha, moved, l, script, 10);
  }

  // ------------------------------------------------------------------------------------------
  // What is released is sealed
  // ------------------------------------------------------------------------------------------

  predicate Sealed(w: World) {
    w.row.state.Expired? || (w.out.Some? && w.out.value.sealed)
  }

  /** The thread is about to release. */
  predicate Releasing(l: Local) {
    match l.pc
    case Reading(m) => m.to.Released?
    case Swapping(_, m) => m.to.Released?
    case _ => false
  }

  ghost predicate SealedOk(w: World, l: Local) {
    w.row.state.Released? || Releasing(l) ==> Sealed(w)
  }

  ghost predicate KeepsSeal(w: World, w': World) {
    Sealed(w) ==> Sealed(w')
  }

  lemma ReleaseSeals(w: World, l: Local)
    requires WorldOk(w) && LocalOk(w, l) && SealedOk(w, l) && InRelease(l.pc)
    ensures var (w', l') := ReleaseStep(w, l); SealedOk(w', l') && KeepsSeal(w, w')
  {
  }

  lemma CommonSeals(w: World, op: Op, l: Local)
    requires WorldOk(w) && LocalOk(w, l) && SealedOk(w, l) && !InRelease(l.pc)
    ensures var (w', l') := CommonStep(w, op, l); SealedOk(w', l') && KeepsSeal(w, w')
  {
  }

  lemma ActSeals(sha: Hash, w: World, op: Op, l: Local, c: Choice)
    requires WorldOk(w) && LocalOk(w, l) && SealedOk(w, l)
    ensures var (w', l') := Act(sha, w, op, l, c); SealedOk(w', l') && KeepsSeal(w, w')
  {
    if Raises(l, c) {
    } else if InRelease(l.pc) {
      ReleaseSeals(w, l);
    } else if !InScan(l.pc) {
      CommonSeals(w, op, l);
    }
  }

  ghost predicate AllSealed(s: System) {
    && (s.w.row.state.Released? ==> Sealed(s.w))
    && forall t :: t in s.threads ==> SealedOk(s.w, s.threads[t].local)
  }

  lemma NextSeals(sha: Hash, s: System, e: Event)
    requires Inv(sha, s) && AllSealed(s)
    ensures AllSealed(Next(sha, s, e))
  {
    if e.Step? && e.t in s.threads {
      ActSeals(sha, s.w, s.threads[e.t].op, s.threads[e.t].local, e.c);
    }
  }

  lemma {:induction false} RunSeals(sha: Hash, s: System, events: seq<Event>)
    requires Inv(sha, s) && AllSealed(s)
    ensures AllSealed(Run(sha, s, events))
    decreases |events|
  {
    if events != [] {
      NextSeals(sha, s, events[0]);
      NextKeepsInv(sha, s, events[0]);
      RunSeals(sha, Next(sha, s, events[0]), events[1..]);
    }
  }

  /** In every run, tampering and refused startups included, the file of a released object is sealed. */
  lemma {:induction false} ReleasedIsSealed(sha: Hash, bytes: Bytes, known: bool, conflict: bool,
                         events: seq<Event>)
    ensures var w := Run(sha, Submitted(sha, bytes, known, conflict), events).w;
            w.row.state.Released? ==> w.out.Some? && w.out.value.sealed
  {
    SubmittedOk(sha, bytes, known, conflict);
    RunSeals(sha, Submitted(sha, bytes, known, conflict), events);
  }
}
