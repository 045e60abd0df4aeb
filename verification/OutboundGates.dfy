/**
 The startup check of one outbound transfer, over every untampered run in which the service goes on only
 after a crash that the check accepts; and what the release hashes again, tampering included.
 */
module OutboundGates {
  import opened Basics
  import opened Outbound
  import OutboundDecision

  /** Nobody touches the payload, and after a crash the service is only running if the check let it start. */
  predicate Lives(sha: Hash, production: bool, s: System, events: seq<Event>)
    decreases |events|
  {
    events == [] ||
    (&& !events[0].Tamper? && (events[0].Crash? ==> HardenAccepts(sha, s.w, production))
     && Lives(sha, production, Next(sha, s, events[0]), events[1..]))
  }

  predicate Purges(l: Local, place: Place) {
    (l.pc.PurgeFile? || l.pc.PurgeRow?) && l.path == place
  }

  predicate Unlinked(l: Local, place: Place) {
    l.pc.PurgeRow? && l.path == place
  }

  predicate Unsealed(w: World) {
    w.green.Some? && !w.green.value.sealed
  }

  /**
   A thread in one of the crash windows of the place the row names: between the rename and the path
   update, between that and the seal (production), between the unlink of a purge and its path update.
   */
  predicate InWindow(w: World, l: Local, production: bool) {
    match w.row.place
    case Isolation => l.pc.SavePath? || Unlinked(l, Isolation)
    case Green => Unlinked(l, Green) || (production && (l.pc.DropSource? || l.pc.Seal?) && Unsealed(w))
    case Purged => false
  }

  /**
   What parts row and file beyond the thread that does it: an exception inside a window, a path update that finds
   the transfer no longer approved, and the clean-up of a failed release that removes a payload moved meanwhile.
   */
  predicate Breaks(w: World, l: Local, c: Choice, production: bool) {
    if Raises(l, c) then InWindow(w, l, production)
    else
      || (l.pc.SavePath? && !w.row.state.Approved? && w.row.place.Isolation?)
      || (l.pc.DropDir? && w.green.Some? && !w.row.place.Purged?)
  }

  /** What brings them together again. */
  predicate Mends(w: World, l: Local, c: Choice) {
    c.ok &&
    (|| l.pc.PurgeRow?
     || (l.pc.SavePath? && w.row.state.Approved? && w.green.Some?)
     || (l.pc.Seal? && w.row.place.Green? && w.green.Some?))
  }

  predicate After(w: World, l: Local, c: Choice, production: bool, stranded: bool) {
    Breaks(w, l, c, production) || (stranded && !Mends(w, l, c))
  }

  predicate NextStranded(s: System, e: Event, production: bool, stranded: bool) {
    if e.Step? && e.t in s.threads then After(s.w, s.threads[e.t].local, e.c, production, stranded) else stranded
  }

  predicate Stranded(sha: Hash, s: System, events: seq<Event>, production: bool, before: bool)
    decreases |events|
  {
    if events == [] then before
    else Stranded(sha, Next(sha, s, events[0]), events[1..], production, NextStranded(s, events[0], production, before))
  }

  /** The recorded path names no file, or in production one that is not sealed. */
  predicate Refused(w: World, production: bool) {
    match w.row.place
    case Isolation => w.iso.None?
    case Green => w.green.None? || (production && !w.green.value.sealed)
    case Purged => false
  }

  ghost predicate Explained(s: System, production: bool, stranded: bool) {
    || !Refused(s.w, production)
    || stranded
    || exists t :: t in s.threads && InWindow(s.w, s.threads[t].local, production)
  }

  predicate FilesGate(w: World, production: bool, stranded: bool) {
    && (w.row.place.Green? || w.green.Some? ==> w.iso.None?)
    && (stranded ==> Refused(w, production))
    && (w.dropped && !w.row.place.Purged? ==> stranded)
  }

  predicate ThreadGate(w: World, l: Local) {
    && (l.pc.SavePath? || l.pc.VerifyTarget? || l.pc.DropSource? || l.pc.Seal? ==> w.iso.None?)
    && (l.pc.MakeDir? && l.path.Green? ==> w.iso.None?)
    && (Purges(l, Green) ==> w.iso.None?)
    && (Unlinked(l, Isolation) ==> w.iso.None?)
    && (Unlinked(l, Green) ==> w.green.None?)
  }

  ghost predicate Gates(sha: Hash, s: System, production: bool, stranded: bool) {
    && Inv(sha, s) && !s.tampered && FilesGate(s.w, production, stranded)
    && (forall t :: t in s.threads ==> ThreadGate(s.w, s.threads[t].local))
    && Explained(s, production, stranded)
  }

  ghost predicate Ready(w: World, op: Op, l: Local, production: bool, stranded: bool) {
    WorldOk(w) && LocalOk(w, op, l) && FilesGate(w, production, stranded) && ThreadGate(w, l)
  }

  /** What one step does to the files, and how it accounts for a refusal after it. */
  ghost predicate Effect(w: World, l: Local, w': World, l': Local, production: bool, before: bool, after: bool) {
    && FilesGate(w', production, after) && ThreadGate(w', l')
    && (w.iso.None? ==> w'.iso.None?)
    && (w'.green.Some? && w.green.None? ==> w.iso.Some?)
    && (w'.row.place.Green? && !w.row.place.Green? ==> !w.row.state.Expired?)
    && (Refused(w', production) && !after ==>
          || InWindow(w', l', production)
          || (&& w'.row.place == w.row.place && (w.row.place.Green? && Unsealed(w) ==> Unsealed(w'))
              && Refused(w, production) && !InWindow(w, l, production) && !before))
  }

  lemma RaisedEffect(w: World, op: Op, l: Local, c: Choice, production: bool, stranded: bool)
    requires Ready(w, op, l, production, stranded) && Raises(l, c)
    ensures Effect(w, l, w, Raised(op, l), production, stranded, After(w, l, c, production, stranded))
  {
  }

  lemma ScanEffect(sha: Hash, w: World, op: Op, l: Local, c: Choice, production: bool, stranded: bool)
    requires Ready(w, op, l, production, stranded) && InScan(l.pc)
    ensures Effect(w, l, w, ScanStep(sha, w, l, c), production, stranded, stranded)
  {
  }

  lemma EarlyEffect(sha: Hash, w: World, op: Op, l: Local, production: bool, stranded: bool)
    requires Ready(w, op, l, production, stranded) && InRelease(l.pc)
    requires !l.pc.MoveFile? && !l.pc.SavePath? && !l.pc.DropSource? && !l.pc.Seal? && !l.pc.DropDir?
    ensures var (w', l') := ReleaseStep(sha, w, l); Effect(w, l, w', l', production, stranded, stranded)
  {
  }

  lemma MoveEffect(sha: Hash, w: World, op: Op, l: Local, production: bool, stranded: bool)
    requires Ready(w, op, l, production, stranded) && (l.pc.MoveFile? || l.pc.DropSource?)
    ensures var (w', l') := ReleaseStep(sha, w, l); Effect(w, l, w', l', production, stranded, stranded)
  {
  }

  lemma DropEffect(sha: Hash, w: World, op: Op, l: Local, c: Choice, production: bool, stranded: bool)
    requires Ready(w, op, l, production, stranded) && l.pc.DropDir?
    ensures var (w', l') := ReleaseStep(sha, w, l);
            Effect(w, l, w', l', production, stranded, After(w, l, c, production, stranded))
  {
  }

  lemma SaveEffect(sha: Hash, w: World, op: Op, l: Local, c: Choice, production: bool, stranded: bool)
    requires Ready(w, op, l, production, stranded) && (l.pc.SavePath? || l.pc.Seal?) && c.ok
    ensures var (w', l') := ReleaseStep(sha, w, l);
            Effect(w, l, w', l', production, stranded, After(w, l, c, production, stranded))
  {
  }

  lemma ReleaseEffect(sha: Hash, w: World, op: Op, l: Local, c: Choice, production: bool, stranded: bool)
    requires Ready(w, op, l, production, stranded) && InRelease(l.pc) && !Raises(l, c)
    ensures var (w', l') := ReleaseStep(sha, w, l);
            Effect(w, l, w', l', production, stranded, After(w, l, c, production, stranded))
  {
    if l.pc.SavePath? || l.pc.Seal? {
      SaveEffect(sha, w, op, l, c, production, stranded);
    } else if l.pc.DropDir? {
      DropEffect(sha, w, op, l, c, production, stranded);
    } else if l.pc.MoveFile? || l.pc.DropSource? {
      MoveEffect(sha, w, op, l, production, stranded);
    } else {
      EarlyEffect(sha, w, op, l, production, stranded);
    }
  }

  lemma DeciderEffect(sha: Hash, w: World, op: Op, l: Local, c: Choice, production: bool, stranded: bool)
    requires Ready(w, op, l, production, stranded) && InDecision(l.pc)
    ensures var (w', l') := DeciderStep(sha, w, op, l, c); Effect(w, l, w', l', production, stranded, stranded)
  {
  }

  lemma PurgeEffect(w: World, op: Op, l: Local, c: Choice, production: bool, stranded: bool)
    requires Ready(w, op, l, production, stranded) && (l.pc.PurgeFile? || l.pc.PurgeRow?) && c.ok
    ensures var (w', l') := CommonStep(w, op, l);
            Effect(w, l, w', l', production, stranded, After(w, l, c, production, stranded))
  {
  }

  lemma SwapEffect(w: World, op: Op, l: Local, production: bool, stranded: bool)
    requires Ready(w, op, l, production, stranded) && l.pc.Swapping?
    ensures var (w', l') := CommonStep(w, op, l); Effect(w, l, w', l', production, stranded, stranded)
  {
  }

  lemma QuietEffect(w: World, op: Op, l: Local, l': Local, production: bool, stranded: bool)
    requires Ready(w, op, l, production, stranded) && !InWindow(w, l, production) && ThreadGate(w, l')
    ensures Effect(w, l, w, l', production, stranded, stranded)
  {
  }

  lemma CommonEffect(w: World, op: Op, l: Local, production: bool, stranded: bool)
    requires Ready(w, op, l, production, stranded) && !InScan(l.pc) && !InRelease(l.pc) && !InDecision(l.pc)
    requires !l.pc.PurgeFile? && !l.pc.PurgeRow? && !l.pc.Swapping?
    ensures var (w', l') := CommonStep(w, op, l); Effect(w, l, w', l', production, stranded, stranded)
  {
    if !l.pc.Ending? {
      CommonGate(w, op, l);
      QuietEffect(w, op, l, CommonStep(w, op, l).1, production, stranded);
    }
  }

  lemma CommonGate(w: World, op: Op, l: Local)
    requires ThreadGate(w, l) && (w.row.place.Green? ==> w.iso.None?)
    requires l.pc.Start? || l.pc.Reading? || l.pc.DeadSecond? || l.pc.Gone?
    ensures var (w', l') := CommonStep(w, op, l); w' == w && ThreadGate(w, l')
  {
  }

  lemma StepEffect(sha: Hash, w: World, op: Op, l: Local, c: Choice, production: bool, stranded: bool)
    requires Ready(w, op, l, production, stranded)
    ensures var (w', l') := Act(sha, w, op, l, c);
            Effect(w, l, w', l', production, stranded, After(w, l, c, production, stranded))
  {
    if Raises(l, c) {
      RaisedEffect(w, op, l, c, production, stranded);
    } else if InScan(l.pc) {
      ScanEffect(sha, w, op, l, c, production, stranded);
    } else if InRelease(l.pc) {
      ReleaseEffect(sha, w, op, l, c, production, stranded);
    } else if InDecision(l.pc) {
      DeciderEffect(sha, w, op, l, c, production, stranded);
    } else if l.pc.PurgeFile? || l.pc.PurgeRow? {
      PurgeEffect(w, op, l, c, production, stranded);
    } else if l.pc.Swapping? {
      SwapEffect(w, op, l, production, stranded);
    } else {
      CommonEffect(w, op, l, production, stranded);
    }
  }

  lemma OthersKeepGate(w: World, w': World, op: Op, other: Local)
    requires ThreadGate(w, other) && LocalOk(w, op, other) && (w.iso.None? ==> w'.iso.None?)
    requires w.row.place.Green? ==> w.iso.None?
    requires w'.green.Some? && w.green.None? ==> w.iso.Some?
    ensures ThreadGate(w', other)
  {
  }

  lemma InWindowStays(w: World, w': World, l: Local, production: bool)
    requires InWindow(w, l, production) && w'.row.place == w.row.place
    requires w.row.place.Green? && Unsealed(w) ==> Unsealed(w')
    ensures InWindow(w', l, production)
  {
  }

  lemma StepKeepsGates(sha: Hash, s: System, t: ThreadId, c: Choice, production: bool, stranded: bool)
    requires Gates(sha, s, production, stranded) && t in s.threads
    ensures Gates(sha, Next(sha, s, Step(t, c)), production, NextStranded(s, Step(t, c), production, stranded))
  {
    var s' := Next(sha, s, Step(t, c));
    NextKeepsInv(sha, s, Step(t, c));
    StepEffect(sha, s.w, s.threads[t].op, s.threads[t].local, c, production, stranded);
    forall u | u in s'.threads ensures ThreadGate(s'.w, s'.threads[u].local) {
      if u != t {
        OthersKeepGate(s.w, s'.w, s.threads[u].op, s.threads[u].local);
      }
    }
    StepExplained(sha, s, t, c, production, stranded);
  }

  lemma StepExplained(sha: Hash, s: System, t: ThreadId, c: Choice, production: bool, stranded: bool)
    requires t in s.threads && Explained(s, production, stranded)
    requires var (w', l') := Act(sha, s.w, s.threads[t].op, s.threads[t].local, c);
             Effect(s.w, s.threads[t].local, w', l', production, stranded,
                    NextStranded(s, Step(t, c), production, stranded))
    ensures Explained(Next(sha, s, Step(t, c)), production, NextStranded(s, Step(t, c), production, stranded))
  {
    var s' := Next(sha, s, Step(t, c));
    if Refused(s'.w, production) && !NextStranded(s, Step(t, c), production, stranded)
      && !InWindow(s'.w, s'.threads[t].local, production) {
      var u :| u in s.threads && InWindow(s.w, s.threads[u].local, production);
      InWindowStays(s.w, s'.w, s.threads[u].local, production);
      assert s'.threads[u] == s.threads[u];
    }
  }

  /** Of an untampered store, the check refuses exactly what names no file or an unsealed one. */
  lemma RefusedIsNotAccepted(sha: Hash, s: System, production: bool)
    requires Inv(sha, s) && !s.tampered
    ensures Refused(s.w, production) <==> !HardenAccepts(sha, s.w, production)
  {
  }

  lemma WindowIsRefused(w: World, l: Local, production: bool)
    requires ThreadGate(w, l) && InWindow(w, l, production)
    ensures Refused(w, production)
  {
  }

  lemma NextKeepsGates(sha: Hash, s: System, e: Event, production: bool, stranded: bool)
    requires Gates(sha, s, production, stranded)
    requires !e.Tamper? && (e.Crash? ==> HardenAccepts(sha, s.w, production))
    ensures Gates(sha, Next(sha, s, e), production, NextStranded(s, e, production, stranded))
  {
    if e.Step? {
      if e.t in s.threads {
        StepKeepsGates(sha, s, e.t, e.c, production, stranded);
      }
    } else {
      EventKeepsGates(sha, s, e, production, stranded);
    }
  }

  lemma EventKeepsGates(sha: Hash, s: System, e: Event, production: bool, stranded: bool)
    requires Gates(sha, s, production, stranded) && !e.Step? && !e.Tamper?
    requires e.Crash? ==> HardenAccepts(sha, s.w, production)
    ensures Gates(sha, Next(sha, s, e), production, stranded)
  {
    var s' := Next(sha, s, e);
    NextKeepsInv(sha, s, e);
    RefusedIsNotAccepted(sha, s, production);
    EventKeepsThreads(sha, s, e, production, stranded);
    if Refused(s.w, production) && !stranded {
      var u :| u in s.threads && InWindow(s.w, s.threads[u].local, production);
      assert u in s'.threads && s'.threads[u] == s.threads[u];
    }
  }

  lemma EventKeepsThreads(sha: Hash, s: System, e: Event, production: bool, stranded: bool)
    requires !e.Step? && !e.Tamper? && FilesGate(s.w, production, stranded)
    requires forall t :: t in s.threads ==> ThreadGate(s.w, s.threads[t].local)
    ensures var s' := Next(sha, s, e);
            && FilesGate(s'.w, production, stranded) && (Refused(s'.w, production) <==> Refused(s.w, production))
            && (forall t :: t in s'.threads ==> ThreadGate(s'.w, s'.threads[t].local))
  {
  }

  lemma {:induction false} RunKeepsGates(sha: Hash, s: System, events: seq<Event>, production: bool, stranded: bool)
    requires Gates(sha, s, production, stranded) && Lives(sha, production, s, events)
    ensures Gates(sha, Run(sha, s, events), production, Stranded(sha, s, events, production, stranded))
    decreases |events|
  {
    if events != [] {
      NextKeepsGates(sha, s, events[0], production, stranded);
      RunKeepsGates(sha, Next(sha, s, events[0]), events[1..], production,
                    NextStranded(s, events[0], production, stranded));
    }
  }

  /**
   The startup check after a crash, in every reachable state: it refuses exactly when the crash hit a thread in
   a window, or something has parted row and file beyond its thread and nothing has mended it since.
   */
  lemma {:induction false} StartupRefusedIffInWindow(sha: Hash, bytes: Bytes, conflict: bool, provider: Provider,
                                                     policy: Policy, events: seq<Event>, production: bool)
    requires Lives(sha, production, Submitted(sha, bytes, conflict, provider, policy), events)
    ensures var s0 := Submitted(sha, bytes, conflict, provider, policy);
            var s := Run(sha, s0, events);
            !HardenAccepts(sha, Next(sha, s, Crash).w, production) <==>
            || Stranded(sha, s0, events, production, false)
            || exists t :: t in s.threads && InWindow(s.w, s.threads[t].local, production)
  {
    var s0 := Submitted(sha, bytes, conflict, provider, policy);
    var s := Run(sha, s0, events);
    SubmittedOk(sha, bytes, conflict, provider, policy);
    RunKeepsGates(sha, s0, events, production, false);
    RefusedIsNotAccepted(sha, s, production);
    if t :| t in s.threads && InWindow(s.w, s.threads[t].local, production) {
      WindowIsRefused(s.w, s.threads[t].local, production);
    }
  }

  /**
   The startup check finds a rewritten payload: with the file at the row's place replaced it accepts what it accepted
   before exactly when the new bytes have the recorded length and hash.
   */
  lemma RewrittenIsRefused(sha: Hash, s: System, bytes: Bytes, production: bool)
    requires HardenAccepts(sha, s.w, production) && !s.w.row.place.Purged?
    ensures var w' := Next(sha, s, Tamper(s.w.row.place, bytes)).w;
            HardenAccepts(sha, w', production) <==> |bytes| == s.w.row.size && sha(bytes) == s.w.row.digest
  {
  }

  // ------------------------------------------------------------------------------------------
  // A stranded path occurs
  // ------------------------------------------------------------------------------------------

  /** The release moves the payload, an operator expires the transfer, the release comes to its path update. */
  function ExpiredWhileReleasing(): seq<Event> {
    var good := OutboundDecision.Script;
    Steps(2, good(4), 0) + ([Spawn(4, Expire)] + Steps(4, good(4), 0) + Steps(2, good(1), 0))
  }

  lemma MovesAlone(sha: Hash, w: World, op: Op)
    requires w.row.state.Approved? && w.row.place.Isolation? && w.iso.Some? && w.green.None?
    requires w.runtime && Permits(w.policy, w.row)
    ensures var l := Local(ReleaseRead, NO_PASS.(verified := true), Isolation);
            Alone(sha, w, op, l, OutboundDecision.Script(4), 0) ==
            (w.(greenDir := true, green := w.iso, iso := None),
             l.(pc := SavePath, pass := l.pass.(permitted := true)))
  {
    var l := Local(ReleaseRead, NO_PASS.(verified := true), Isolation);
    var l1 := l.(pass := l.pass.(permitted := true));
    var w1 := w.(greenDir := true);
    OutboundDecision.Walk(sha, w, op, l, 4, 0, w, l1.(pc := MakeDir));
    OutboundDecision.Walk(sha, w, op, l1.(pc := MakeDir), 4, 1, w1, l1.(pc := TargetExists));
    RenamesAlone(sha, w1, op, l1);
  }

  lemma RenamesAlone(sha: Hash, w1: World, op: Op, l1: Local)
    requires w1.iso.Some? && w1.green.None? && w1.greenDir
    ensures Alone(sha, w1, op, l1.(pc := TargetExists), OutboundDecision.Script(4), 2) ==
            (w1.(green := w1.iso, iso := None), l1.(pc := SavePath))
  {
    OutboundDecision.Walk(sha, w1, op, l1.(pc := TargetExists), 4, 2, w1, l1.(pc := MoveFile));
    OutboundDecision.Walk(sha, w1, op, l1.(pc := MoveFile), 4, 3,
                          w1.(green := w1.iso, iso := None), l1.(pc := SavePath));
  }

  const EXPIRING: Move := To(Expired, ToEnd(true), ToEnd(false))

  lemma ExpiresAlone(sha: Hash, w: World)
    requires w.row.state.Approved?
    ensures var w' := Alone(sha, w, Expire, OutboundDecision.BEGIN, OutboundDecision.Script(4), 0).0;
            w' == Swap(w, Approved, EXPIRING, NO_PASS)
  {
    var l := OutboundDecision.BEGIN;
    OutboundDecision.Walk(sha, w, Expire, l, 4, 0, w, l.(pc := Reading(EXPIRING)));
    OutboundDecision.Walk(sha, w, Expire, l.(pc := Reading(EXPIRING)), 4, 1, w, l.(pc := Swapping(Approved, EXPIRING)));
    ExpirySwaps(sha, w);
  }

  lemma ExpirySwaps(sha: Hash, w: World)
    requires w.row.state.Approved?
    ensures var l := OutboundDecision.BEGIN.(pc := Swapping(Approved, EXPIRING));
            Alone(sha, w, Expire, l, OutboundDecision.Script(4), 2).0 == Swap(w, Approved, EXPIRING, NO_PASS)
  {
    var l, w1 := OutboundDecision.BEGIN, Swap(w, Approved, EXPIRING, NO_PASS);
    OutboundDecision.Walk(sha, w, Expire, l.(pc := Swapping(Approved, EXPIRING)), 4, 2, w1, l.(pc := Ending(true)));
    OutboundDecision.Walk(sha, w1, Expire, l.(pc := Ending(true)), 4, 3, w1, l.(pc := Gone));
  }

  lemma StrandsAlone(sha: Hash, w: World, op: Op, l: Local)
    requires w.row.state.Expired? && l.pc.SavePath?
    ensures Alone(sha, w, op, l, OutboundDecision.Script(1), 0) == (w, l.(pc := DropSource))
  {
    OutboundDecision.Walk(sha, w, op, l, 1, 0, w, l.(pc := DropSource));
  }

  lemma Strands(sha: Hash, s: System)
    requires s.w.row.state.Approved? && s.w.row.place.Isolation? && s.w.iso.Some? && s.w.green.None?
    requires s.w.runtime && Permits(s.w.policy, s.w.row) && 2 in s.threads && 4 !in s.threads
    requires s.threads[2].local == Local(ReleaseRead, NO_PASS.(verified := true), Isolation)
    ensures var s' := Run(sha, s, ExpiredWhileReleasing());
            && s'.w.row.state.Expired? && s'.w.row.place.Isolation? && s'.w.iso.None? && s'.w.green == s.w.iso
            && s'.tampered == s.tampered && 2 in s'.threads && s'.threads[2].local.pc.DropSource?
  {
    var good, op := OutboundDecision.Script, s.threads[2].op;
    var expire := [Spawn(4, Expire)] + Steps(4, good(4), 0);
    var s1 := Run(sha, s, Steps(2, good(4), 0));
    var s2 := Run(sha, s1, expire);
    MovesAlone(sha, s.w, op);
    AloneIsRun(sha, s, 2, good(4), 0);
    ExpiresAlone(sha, s1.w);
    SpawnedAlone(sha, s1, 4, Expire, good(4));
    StrandsAlone(sha, s2.w, op, s2.threads[2].local);
    AloneIsRun(sha, s2, 2, good(1), 0);
    RunAppend(sha, s, Steps(2, good(4), 0), expire + Steps(2, good(1), 0));
    RunAppend(sha, s1, expire, Steps(2, good(1), 0));
  }

  /**
   An approved transfer expires between the rename and the path update of its release. Nobody tampers and no
   thread is in a window any more, but the row names an empty path: the next startup is refused.
   */
  lemma StrandedIsReachable(sha: Hash, bytes: Bytes, production: bool)
    ensures var events := OutboundDecision.ToApproved() + ExpiredWhileReleasing();
            var s := Run(sha, Submitted(sha, bytes, false, LocalApproval, OutboundDecision.OPEN_POLICY), events);
            && !s.tampered && s.w.row.state.Expired? && s.w.green.Some? && s.w.green.value.bytes == bytes
            && !HardenAccepts(sha, Next(sha, s, Crash).w, production)
  {
    var s := OutboundDecision.ApprovedRun(sha, bytes, ExpiredWhileReleasing());
    Strands(sha, s);
  }

  function Bad(): (script: seq<Choice>)
    ensures |script| == 1 && !script[0].ok
  {
    [OutboundDecision.GOOD.(ok := false)]
  }

  /** The release moves the payload, and its path update raises. */
  function PathUpdateRaises(): seq<Event> {
    Steps(2, OutboundDecision.Script(4), 0) + Steps(2, Bad(), 0)
  }

  lemma {:induction false} SaveRaises(sha: Hash, w: World, op: Op, l: Local, script: seq<Choice>)
    requires l.pc.SavePath? && |script| == 1 && !script[0].ok
    ensures Alone(sha, w, op, l, script, 0) == (w, l.(pc := Ending(false)))
  {
    Onward(sha, w, op, l, script, 0);
  }

  lemma UpdateRaises(sha: Hash, s: System)
    requires s.w.row.state.Approved? && s.w.row.place.Isolation? && s.w.iso.Some? && s.w.green.None?
    requires s.w.runtime && Permits(s.w.policy, s.w.row) && 2 in s.threads
    requires s.threads[2].local == Local(ReleaseRead, NO_PASS.(verified := true), Isolation)
    ensures var s' := Run(sha, s, PathUpdateRaises());
            && s'.w.row == s.w.row && s'.w.iso.None? && s'.w.green == s.w.iso
            && s'.tampered == s.tampered && 2 in s'.threads && s'.threads[2].local.pc == Ending(false)
  {
    var s1 := Run(sha, s, Steps(2, OutboundDecision.Script(4), 0));
    MovesAlone(sha, s.w, s.threads[2].op);
    AloneIsRun(sha, s, 2, OutboundDecision.Script(4), 0);
    RunAppend(sha, s, Steps(2, OutboundDecision.Script(4), 0), Steps(2, Bad(), 0));
    RaisesThere(sha, s1, 2);
  }

  lemma RaisesThere(sha: Hash, s: System, t: ThreadId)
    requires t in s.threads && s.threads[t].local.pc.SavePath?
    ensures var s' := Run(sha, s, Steps(t, Bad(), 0));
            s'.w == s.w && s'.tampered == s.tampered && t in s'.threads && s'.threads[t].local.pc == Ending(false)
  {
    SaveRaises(sha, s.w, s.threads[t].op, s.threads[t].local, Bad());
    AloneIsRun(sha, s, t, Bad(), 0);
  }

  /** An exception strands the path as well: an approved transfer whose release has returned an error. */
  lemma RaisedIsReachable(sha: Hash, bytes: Bytes, production: bool)
    ensures var events := OutboundDecision.ToApproved() + PathUpdateRaises();
            var s := Run(sha, Submitted(sha, bytes, false, LocalApproval, OutboundDecision.OPEN_POLICY), events);
            && !s.tampered && s.w.row.state.Approved? && s.w.green.Some? && s.w.green.value.bytes == bytes
            && !HardenAccepts(sha, Next(sha, s, Crash).w, production)
  {
    var s := OutboundDecision.ApprovedRun(sha, bytes, PathUpdateRaises());
    UpdateRaises(sha, s);
  }

  // ------------------------------------------------------------------------------------------
  // What is released is sealed
  // ------------------------------------------------------------------------------------------

  predicate Sealed(w: World) {
    !Live(w) || (w.green.Some? && w.green.value.sealed)
  }

  /** The thread is about to release. */
  predicate Releasing(l: Local) {
    match l.pc
    case Reading(m) => m.to.ReleasedToGreen?
    case Swapping(_, m) => m.to.ReleasedToGreen?
    case _ => false
  }

  ghost predicate SealedOk(w: World, l: Local) {
    w.row.state.ReleasedToGreen? || Releasing(l) ==> Sealed(w)
  }

  ghost predicate KeepsSeal(w: World, w': World) {
    Decided(w.row.state) && Sealed(w) ==> Sealed(w')
  }

  lemma ReleaseSeals(sha: Hash, w: World, op: Op, l: Local)
    requires WorldOk(w) && LocalOk(w, op, l) && SealedOk(w, l) && InRelease(l.pc)
    ensures var (w', l') := ReleaseStep(sha, w, l); SealedOk(w', l') && KeepsSeal(w, w')
  {
  }

  lemma CommonSeals(w: World, op: Op, l: Local)
    requires WorldOk(w) && LocalOk(w, op, l) && SealedOk(w, l) && !InRelease(l.pc)
    ensures var (w', l') := CommonStep(w, op, l); SealedOk(w', l') && KeepsSeal(w, w')
  {
    if l.pc.Start? || l.pc.DeadSecond? {
      StartSeals(w, op, l);
    } else if l.pc.PurgeFile? || l.pc.PurgeRow? {
      PurgeSeals(w, op, l);
    }
  }

  lemma StartSeals(w: World, op: Op, l: Local)
    requires SealedOk(w, l) && (l.pc.Start? || l.pc.DeadSecond?)
    ensures var (w', l') := CommonStep(w, op, l); SealedOk(w', l') && KeepsSeal(w, w')
  {
  }

  lemma PurgeSeals(w: World, op: Op, l: Local)
    requires LocalOk(w, op, l) && (l.pc.PurgeFile? || l.pc.PurgeRow?)
    ensures var (w', l') := CommonStep(w, op, l); SealedOk(w', l') && KeepsSeal(w, w')
  {
  }

  lemma ActSeals(sha: Hash, w: World, op: Op, l: Local, c: Choice)
    requires WorldOk(w) && LocalOk(w, op, l) && SealedOk(w, l)
    ensures var (w', l') := Act(sha, w, op, l, c); SealedOk(w', l') && KeepsSeal(w, w')
  {
    if Raises(l, c) {
      QuietSeals(w, l, Raised(op, l));
    } else {
      ProceedSeals(sha, w, op, l, c);
    }
  }

  lemma QuietSeals(w: World, l: Local, l': Local)
    requires SealedOk(w, l) && !Releasing(l')
    ensures SealedOk(w, l') && KeepsSeal(w, w)
  {
  }

  lemma ProceedSeals(sha: Hash, w: World, op: Op, l: Local, c: Choice)
    requires WorldOk(w) && LocalOk(w, op, l) && SealedOk(w, l)
    ensures var (w', l') := Proceed(sha, w, op, l, c); SealedOk(w', l') && KeepsSeal(w, w')
  {
    if InRelease(l.pc) {
      ReleaseSeals(sha, w, op, l);
    } else if InScan(l.pc) {
      QuietSeals(w, l, ScanStep(sha, w, l, c));
    } else if InDecision(l.pc) {
      DeciderSeals(sha, w, op, l, c);
    } else {
      CommonSeals(w, op, l);
    }
  }

  lemma DeciderSeals(sha: Hash, w: World, op: Op, l: Local, c: Choice)
    requires SealedOk(w, l) && InDecision(l.pc)
    ensures var (w', l') := DeciderStep(sha, w, op, l, c); SealedOk(w', l') && KeepsSeal(w, w')
  {
  }

  ghost predicate AllSealed(s: System) {
    && (s.w.row.state.ReleasedToGreen? ==> Sealed(s.w))
    && forall t :: t in s.threads ==> SealedOk(s.w, s.threads[t].local)
  }

  lemma NextSeals(sha: Hash, s: System, e: Event)
    requires Inv(sha, s) && AllSealed(s)
    ensures AllSealed(Next(sha, s, e))
  {
    if e.Step? && e.t in s.threads {
      ActSeals(sha, s.w, s.threads[e.t].op, s.threads[e.t].local, e.c);
    }
  }

  lemma {:induction false} RunSeals(sha: Hash, s: System, events: seq<Event>)
    requires Inv(sha, s) && AllSealed(s)
    ensures AllSealed(Run(sha, s, events))
    decreases |events|
  {
    if events != [] {
      NextSeals(sha, s, events[0]);
      NextKeepsInv(sha, s, events[0]);
      RunSeals(sha, Next(sha, s, events[0]), events[1..]);
    }
  }

  /**
   In every run, tampering and refused startups included, the file of a released transfer is sealed, if no failed
   release has removed it.
   */
  lemma {:induction false} ReleasedIsSealed(sha: Hash, bytes: Bytes, conflict: bool, provider: Provider, policy: Policy,
                         events: seq<Event>)
    ensures var w := Run(sha, Submitted(sha, bytes, conflict, provider, policy), events).w;
            w.row.state.ReleasedToGreen? && !w.dropped ==> w.green.Some? && w.green.value.sealed
  {
    SubmittedOk(sha, bytes, conflict, provider, policy);
    RunSeals(sha, Submitted(sha, bytes, conflict, provider, policy), events);
  }
}
