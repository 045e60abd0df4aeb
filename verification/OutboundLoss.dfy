/**
 The one way in which releases of the same transfer lose its payload: the clean-up of a release whose rename raised
 removes the directory into which another release has renamed the payload meanwhile.
 */
module OutboundLoss {
  import opened Basics
  import opened Outbound
  import OutboundDecision

  /** The event is an exception between the look at the target and the end of the rename. */
  predicate RenameRaises(s: System, e: Event) {
    && e.Step? && e.t in s.threads && !e.c.ok
    && var pc := s.threads[e.t].local.pc; pc.TargetExists? || pc.SourceGone? || pc.VerifyTarget? || pc.MoveFile?
  }

  predicate NoRenameRaises(sha: Hash, s: System, events: seq<Event>)
    decreases |events|
  {
    events == [] || (!RenameRaises(s, events[0]) && NoRenameRaises(sha, Next(sha, s, events[0]), events[1..]))
  }

  /** A release fails in the rename block, or cleans up, only where there is nothing to move any more. */
  predicate Orderly(w: World, l: Local) {
    match l.pc
    case TargetExists => w.greenDir || w.iso.None?
    case MoveFile => w.greenDir || w.iso.None?
    case SourceGone => w.iso.None?
    case VerifyTarget => w.iso.None?
    case SavePath => w.iso.None?
    case FailedMove => w.iso.None?
    case DropDir => w.iso.None? && w.green.None?
    case PurgeFile => l.path.Green? ==> w.iso.None?
    case _ => true
  }

  ghost predicate AllOrderly(s: System) {
    && !s.w.dropped && (s.w.row.place.Green? ==> s.w.iso.None?)
    && forall t :: t in s.threads ==> Orderly(s.w, s.threads[t].local)
  }

  /** What every step leaves to the others. */
  predicate Leaves(w: World, w': World) {
    && !w'.dropped && (w'.row.place.Green? ==> w'.iso.None?)
    && (w.iso.None? ==> w'.iso.None? && (w.green.None? ==> w'.green.None?))
    && (w.greenDir && !w'.greenDir ==> w'.iso.None?)
  }

  lemma ReleaseIsOrderly(sha: Hash, w: World, op: Op, l: Local)
    requires FilesOk(w) && LocalOk(w, op, l) && Orderly(w, l) && InRelease(l.pc)
    requires !w.dropped && (w.row.place.Green? ==> w.iso.None?)
    ensures var (w', l') := ReleaseStep(sha, w, l); Orderly(w', l') && Leaves(w, w')
  {
  }

  lemma CommonIsOrderly(w: World, op: Op, l: Local)
    requires Orderly(w, l) && !InRelease(l.pc) && !w.dropped && (w.row.place.Green? ==> w.iso.None?)
    ensures var (w', l') := CommonStep(w, op, l); Orderly(w', l') && Leaves(w, w')
  {
  }

  lemma ActIsOrderly(sha: Hash, w: World, op: Op, l: Local, c: Choice)
    requires FilesOk(w) && LocalOk(w, op, l) && Orderly(w, l) && !w.dropped && (w.row.place.Green? ==> w.iso.None?)
    requires !c.ok ==> !l.pc.TargetExists? && !l.pc.SourceGone? && !l.pc.VerifyTarget? && !l.pc.MoveFile?
    ensures var (w', l') := Act(sha, w, op, l, c); Orderly(w', l') && Leaves(w, w')
  {
    if Raises(l, c) {
      RaisedIsOrderly(w, op, l);
    } else if InRelease(l.pc) {
      ReleaseIsOrderly(sha, w, op, l);
    } else if InScan(l.pc) {
      ScanIsOrderly(sha, w, l, c);
    } else if InDecision(l.pc) {
      DeciderIsOrderly(sha, w, op, l, c);
    } else {
      CommonIsOrderly(w, op, l);
    }
  }

  lemma RaisedIsOrderly(w: World, op: Op, l: Local)
    requires !l.pc.TargetExists? && !l.pc.SourceGone? && !l.pc.VerifyTarget? && !l.pc.MoveFile?
    requires !l.pc.DropDir? && !l.pc.DropSource? && !l.pc.Gone?
    ensures Orderly(w, Raised(op, l))
  {
  }

  lemma ScanIsOrderly(sha: Hash, w: World, l: Local, c: Choice)
    requires InScan(l.pc)
    ensures Orderly(w, ScanStep(sha, w, l, c))
  {
  }

  lemma DeciderIsOrderly(sha: Hash, w: World, op: Op, l: Local, c: Choice)
    requires InDecision(l.pc) && !w.dropped && (w.row.place.Green? ==> w.iso.None?)
    ensures var (w', l') := DeciderStep(sha, w, op, l, c); Orderly(w', l') && Leaves(w, w')
  {
  }

  lemma OthersStayOrderly(w: World, w': World, l: Local)
    requires Orderly(w, l) && Leaves(w, w')
    ensures Orderly(w', l)
  {
  }

  lemma NextIsOrderly(sha: Hash, s: System, e: Event)
    requires Inv(sha, s) && AllOrderly(s) && !RenameRaises(s, e)
    ensures AllOrderly(Next(sha, s, e))
  {
    var s' := Next(sha, s, e);
    if e.Step? && e.t in s.threads {
      ActIsOrderly(sha, s.w, s.threads[e.t].op, s.threads[e.t].local, e.c);
      forall u | u in s'.threads ensures Orderly(s'.w, s'.threads[u].local) {
        if u != e.t {
          OthersStayOrderly(s.w, s'.w, s.threads[u].local);
        }
      }
    }
  }

  lemma {:induction false} RunIsOrderly(sha: Hash, s: System, events: seq<Event>)
    requires Inv(sha, s) && AllOrderly(s) && NoRenameRaises(sha, s, events)
    ensures AllOrderly(Run(sha, s, events))
    decreases |events|
  {
    if events != [] {
      NextIsOrderly(sha, s, events[0]);
      NextKeepsInv(sha, s, events[0]);
      RunIsOrderly(sha, Next(sha, s, events[0]), events[1..]);
    }
  }

  /** No run loses the payload in which nothing raises around the rename, whatever else raises, crashes or expires. */
  lemma {:induction false} NothingIsDropped(sha: Hash, bytes: Bytes, conflict: bool, provider: Provider,
                                            policy: Policy, events: seq<Event>)
    requires NoRenameRaises(sha, Submitted(sha, bytes, conflict, provider, policy), events)
    ensures !Run(sha, Submitted(sha, bytes, conflict, provider, policy), events).w.dropped
  {
    SubmittedOk(sha, bytes, conflict, provider, policy);
    RunIsOrderly(sha, Submitted(sha, bytes, conflict, provider, policy), events);
  }

  /** Once lost, the payload is nowhere, for ever. */
  lemma {:induction false} DroppedIsLost(sha: Hash, s: System, events: seq<Event>)
    requires Inv(sha, s) && s.w.dropped
    ensures var w' := Run(sha, s, events).w; w'.dropped && w'.iso.None? && w'.green.None?
    decreases |events|
  {
    if events != [] {
      var e := events[0];
      NextKeepsInv(sha, s, e);
      if e.Step? && e.t in s.threads {
        ActKeeps(sha, s.w, s.threads[e.t].op, s.threads[e.t].local, e.c);
      }
      DroppedIsLost(sha, Next(sha, s, e), events[1..]);
    }
  }

  // ------------------------------------------------------------------------------------------
  // It happens
  // ------------------------------------------------------------------------------------------

  const GOOD: Choice := OutboundDecision.GOOD

  /** A release whose rename raises, up to the look that finds no target. */
  function RaisingMove(): seq<Choice> {
    [GOOD, GOOD, GOOD, GOOD.(ok := false), GOOD]
  }

  const AT_RELEASE: Local := Local(ReleaseRead, NO_PASS.(verified := true), Isolation)

  lemma {:induction false} RaisesAlone(sha: Hash, w: World, op: Op)
    requires w.row.state.Approved? && w.row.place.Isolation? && w.green.None? && w.runtime && Permits(w.policy, w.row)
    ensures Alone(sha, w, op, AT_RELEASE, RaisingMove(), 0) ==
            (w.(greenDir := true), AT_RELEASE.(pc := DropDir, pass := AT_RELEASE.pass.(permitted := true)))
  {
    var l := AT_RELEASE.(pass := AT_RELEASE.pass.(permitted := true));
    var w1, script := w.(greenDir := true), RaisingMove();
    Forward(sha, w, op, AT_RELEASE, script, 0, w, l.(pc := MakeDir));
    EntersAlone(sha, w, op, l);
    FailsAlone(sha, w1, op, l.(pc := MoveFile));
  }

  lemma {:induction false} EntersAlone(sha: Hash, w: World, op: Op, l: Local)
    requires l.path.Isolation? && w.green.None?
    ensures Alone(sha, w, op, l.(pc := MakeDir), RaisingMove(), 1) ==
            Alone(sha, w.(greenDir := true), op, l.(pc := MoveFile), RaisingMove(), 3)
  {
    Onward(sha, w, op, l.(pc := MakeDir), RaisingMove(), 1);
    Onward(sha, w.(greenDir := true), op, l.(pc := TargetExists), RaisingMove(), 2);
  }

  lemma {:induction false} FailsAlone(sha: Hash, w: World, op: Op, l: Local)
    requires l.pc.MoveFile? && w.green.None?
    ensures Alone(sha, w, op, l, RaisingMove(), 3) == (w, l.(pc := DropDir))
  {
    Onward(sha, w, op, l, RaisingMove(), 3);
    Onward(sha, w, op, l.(pc := FailedMove), RaisingMove(), 4);
  }

  lemma CleansAlone(sha: Hash, w: World, op: Op, l: Local)
    requires l.pc.DropDir? && w.green.Some?
    ensures Alone(sha, w, op, l, [GOOD], 0) ==
            (w.(green := None, greenDir := false, dropped := true), l.(pc := Ending(false)))
  {
    Onward(sha, w, op, l, [GOOD], 0);
  }

  /** One release raises in its rename, maintenance releases the transfer, the first one cleans up. */
  function RaiseReleaseClean(): seq<Event> {
    Steps(2, RaisingMove(), 0) + (OutboundDecision.Maintenance() + Steps(2, [GOOD], 0))
  }

  lemma DropsBetween(sha: Hash, s: System)
    requires WorldOk(s.w) && s.w.row.state.Approved? && s.w.row.place.Isolation? && s.w.iso.Some?
    requires s.w.runtime && Permits(s.w.policy, s.w.row) && 2 in s.threads && 3 !in s.threads
    requires s.threads[2].local == AT_RELEASE
    ensures var s' := Run(sha, s, RaiseReleaseClean());
            && s'.w.row.state.ReleasedToGreen? && s'.w.dropped && s'.w.green.None? && s'.w.iso.None?
            && s'.tampered == s.tampered
  {
    var op, rest := s.threads[2].op, OutboundDecision.Maintenance() + Steps(2, [GOOD], 0);
    var s1 := Run(sha, s, Steps(2, RaisingMove(), 0));
    var s2 := Run(sha, s1, OutboundDecision.Maintenance());
    RunAppend(sha, s, Steps(2, RaisingMove(), 0), rest);
    RunAppend(sha, s1, OutboundDecision.Maintenance(), Steps(2, [GOOD], 0));
    RaisesAlone(sha, s.w, op);
    AloneIsRun(sha, s, 2, RaisingMove(), 0);
    DirectoryKeepsWorld(s.w);
    OutboundDecision.MaintenanceReleases(sha, s1);
    CleansAlone(sha, s2.w, op, s2.threads[2].local);
    AloneIsRun(sha, s2, 2, [GOOD], 0);
  }

  lemma DirectoryKeepsWorld(w: World)
    requires WorldOk(w)
    ensures WorldOk(w.(greenDir := true))
  {
  }

  /** A transfer released without a payload: nobody has tampered with anything, one rename has raised. */
  lemma DroppedIsReachable(sha: Hash, bytes: Bytes)
    ensures var s0 := Submitted(sha, bytes, false, LocalApproval, OutboundDecision.OPEN_POLICY);
            var s := Run(sha, s0, OutboundDecision.ToApproved() + RaiseReleaseClean());
            && !s.tampered && s.w.dropped && s.w.row.state.ReleasedToGreen?
            && s.w.iso.None? && s.w.green.None?
  {
    var s := OutboundDecision.ApprovedRun(sha, bytes, RaiseReleaseClean());
    DropsBetween(sha, s);
  }
}
