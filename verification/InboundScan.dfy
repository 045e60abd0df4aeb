/**
 One operation on an inbound object run on its own: where a scan ends, with and without a failure on the way, and
 what timeouts, rescans, expiry and purge do. Over runs: which state follows which, and what evidence is real.
 */
module InboundScan {
  import opened Basics
  import opened Inbound

  /** The file the row names has the recorded length and hash. */
  ghost predicate Authentic(sha: Hash, w: World) {
    match w.row.place
    case Isolation => w.iso.Some? && |w.iso.value.bytes| == w.row.size && sha(w.iso.value.bytes) == w.row.digest
    case ReleasedDir => w.out.Some? && |w.out.value.bytes| == w.row.size && sha(w.out.value.bytes) == w.row.digest
    case Purged => false
  }

  /** The object is in another state; its files are where they were. */
  ghost predicate Held(w: World, w': World, state: State) {
    && w'.row == w.row.(state := state)
    && w'.iso == w.iso && w'.outDir == w.outDir && w'.out == w.out && w'.runtime == w.runtime
  }

  /** Where a scan ends that nothing disturbs and whose scanners give these answers. */
  ghost predicate ScanEnds(sha: Hash, w: World, statuses: seq<Status>, w': World) {
    if !w.runtime || !Authentic(sha, w) then Held(w, w', Quarantined)
    else if exists k :: 0 <= k < |statuses| && statuses[k].Infected? then Held(w, w', Rejected)
    else if (exists k :: 0 <= k < |statuses| && !statuses[k].Clean?) || !w.row.typeKnown || w.row.typeConflict then
      Held(w, w', Quarantined)
    else if w.outDir then Held(w, w', Quarantined)
    else
      && w'.row == w.row.(state := Released, place := ReleasedDir)
      && w.iso.Some? && w'.out == Some(File(w.iso.value.bytes, true)) && w'.iso.None? && w'.outDir
  }

  // ------------------------------------------------------------------------------------------
  // A scan that nothing disturbs
  // ------------------------------------------------------------------------------------------

  lemma {:induction false} ConcludeAlone(sha: Hash, w: World, l: Local, to: State, script: seq<Choice>, i: nat)
    requires w.row.state.Scanning? && (to.Quarantined? || to.Rejected?) && |script| >= i + 2 && Calm(script)
    ensures var (w', l') := Alone(sha, w, Scan, MoveTo(l, to), script, i); Held(w, w', to) && l'.pc.Gone?
  {
    TransitionAlone(sha, w, Scan, MoveTo(l, to), MoveTo(l, to).pc.m, script, i);
  }

  lemma {:induction false} ChecksEnd(sha: Hash, w: World, script: seq<Choice>)
    requires WorldOk(w) && w.row.state.Scanning? && Calm(script) && |script| >= 13
    ensures var (w', l') := Alone(sha, w, Scan, BEGIN.(pc := FirstCheck), script, 3);
            ScanEnds(sha, w, script[4].statuses, w') && l'.pc.Gone?
  {
    var l := BEGIN.(path := w.row.place);
    if !w.runtime || !Intact(sha, w, w.row.place) {
      Forward(sha, w, Scan, BEGIN.(pc := FirstCheck), script, 3, w, MoveTo(l, Quarantined));
      ConcludeAlone(sha, w, l, Quarantined, script, 4);
    } else {
      var l1 := l.(pass := NO_PASS.(first := true), pc := RunScanners);
      Forward(sha, w, Scan, BEGIN.(pc := FirstCheck), script, 3, w, l1);
      VerdictsEnd(sha, w, l1, script);
    }
  }

  lemma {:induction false} VerdictsEnd(sha: Hash, w: World, l: Local, script: seq<Choice>)
    requires WorldOk(w) && w.row.state.Scanning? && w.runtime && Intact(sha, w, w.row.place)
    requires l.pc.RunScanners? && l.path == w.row.place && Calm(script) && |script| >= 13
    ensures var (w', l') := Alone(sha, w, Scan, l, script, 4);
            ScanEnds(sha, w, script[4].statuses, w') && l'.pc.Gone?
  {
    var statuses := script[4].statuses;
    var l1 := l.(pass := l.pass.(statuses := Some(statuses)));
    if AnyInfected(statuses) {
      Forward(sha, w, Scan, l, script, 4, w, MoveTo(l1, Rejected));
      ConcludeAlone(sha, w, l1, Rejected, script, 5);
    } else if !AllClean(statuses) || !w.row.typeKnown || w.row.typeConflict {
      Forward(sha, w, Scan, l, script, 4, w, MoveTo(l1, Quarantined));
      ConcludeAlone(sha, w, l1, Quarantined, script, 5);
    } else {
      Forward(sha, w, Scan, l, script, 4, w, l1.(pc := SecondCheck));
      ReleaseEnds(sha, w, l1, script);
    }
  }

  lemma {:induction false} ReleaseEnds(sha: Hash, w: World, l: Local, script: seq<Choice>)
    requires WorldOk(w) && w.row.state.Scanning? && w.runtime && Intact(sha, w, w.row.place)
    requires l.path == w.row.place && Calm(script) && |script| >= 13
    requires w.row.typeKnown && !w.row.typeConflict && AllClean(script[4].statuses)
    ensures var (w', l') := Alone(sha, w, Scan, l.(pc := SecondCheck), script, 5);
            ScanEnds(sha, w, script[4].statuses, w') && l'.pc.Gone?
  {
    var l1 := l.(pass := l.pass.(second := true), pc := MakeDir);
    Forward(sha, w, Scan, l.(pc := SecondCheck), script, 5, w, l1);
    if w.outDir {
      Forward(sha, w, Scan, l1, script, 6, w, l1.(pc := Failing));
      FailingAlone(sha, w, l1, script, 7);
    } else {
      Forward(sha, w, Scan, l1, script, 6, w.(outDir := true), l1.(pc := MoveFile));
      MoveAlone(sha, w.(outDir := true), l1, script, 7);
    }
  }

  /**
   Every undisturbed scan of a pending object, whatever its files are. A runtime that is not accepted, or a payload
   that is not the recorded one, is quarantined; otherwise one infected verdict rejects; otherwise a verdict that
   is not clean, an unknown or conflicting type, or an existing released directory quarantines; otherwise the
   object is released, with its bytes sealed in the released directory and nowhere else.
   */
  lemma {:induction false} ScanOutcome(sha: Hash, w: World, script: seq<Choice>)
    requires WorldOk(w) && w.row.state.PendingScan? && Calm(script) && |script| >= 13
    ensures var (w', l') := Alone(sha, w, Scan, BEGIN, script, 0);
            ScanEnds(sha, w, script[4].statuses, w') && l'.pc.Gone?
  {
    var w1 := Swap(w, PendingScan, Scanning, NO_PASS);
    BeginAlone(sha, w, script);
    ExtendLog(PendingScan, w.row.typeKnown, w.row.typeConflict, w.log, Changed(PendingScan, Scanning, NO_PASS));
    ChecksEnd(sha, w1, script);
  }

  // ------------------------------------------------------------------------------------------
  // A scan in which one step raises
  // ------------------------------------------------------------------------------------------

  /** At most one step raises. */
  predicate OneRaise(script: seq<Choice>) {
    forall j, k :: 0 <= j < k < |script| && !script[j].ok ==> script[k].ok
  }

  ghost predicate ScanMove(w: World, m: Move, raised: bool) {
    if w.row.state.PendingScan? then m == Move(Scanning, ToFirstCheck, ToEnd) && !raised && Unmoved(w)
    else
      && w.row.state.Scanning? && m.next.ToEnd?
      && if raised then m.to.Quarantined?
         else m.fail.ToFailing? && (m.to.Quarantined? || m.to.Rejected? || m.to.Released?)
  }

  /** Nothing of an earlier release is there. */
  ghost predicate Unmoved(w: World) {
    w.row.place.Isolation? && !w.outDir
  }

  /** How far such a scan has come; `raised` when one of its steps has raised. */
  ghost predicate Scans(w: World, l: Local, raised: bool) {
    match l.pc
    case Start => w.row.state.PendingScan? && !raised && Unmoved(w)
    case Reading(m) => ScanMove(w, m, raised)
    case Swapping(from, m) => from == w.row.state && ScanMove(w, m, raised)
    case Gone => w.row.state.PendingScan? || w.row.state.Quarantined? || (!raised && !w.row.state.Scanning?)
    case Failing => w.row.state.Scanning? && raised
    case FirstCheck => w.row.state.Scanning? && !raised && Unmoved(w)
    case RunScanners => w.row.state.Scanning? && !raised && Unmoved(w) && l.path.Isolation?
    case SecondCheck => w.row.state.Scanning? && !raised && Unmoved(w) && l.path.Isolation?
    case MakeDir => w.row.state.Scanning? && !raised && Unmoved(w) && l.path.Isolation? && w.iso.Some?
    case MoveFile => w.row.state.Scanning? && !raised && w.outDir && l.path.Isolation? && w.iso.Some?
    case DropSource => w.row.state.Scanning? && !raised && w.out.Some?
    case SavePath => w.row.state.Scanning? && !raised && w.out.Some?
    case Seal => w.row.state.Scanning? && !raised && w.out.Some?
    case _ => false
  }

  lemma RaiseFails(w: World, l: Local)
    requires Scans(w, l, false) && !l.pc.Gone? && !l.pc.DropSource?
    ensures Scans(w, Raised(l), true)
  {
  }

  lemma ProceedScans(sha: Hash, w: World, l: Local, c: Choice, raised: bool)
    requires Scans(w, l, raised) && !l.pc.Gone?
    ensures var (w', l') := Proceed(sha, w, Scan, l, c); Scans(w', l', raised)
  {
  }

  lemma {:induction false} AloneScans(sha: Hash, w: World, l: Local, script: seq<Choice>, i: nat, raised: bool)
    requires Scans(w, l, raised) && forall j :: i <= j < |script| ==> script[j].ok
    ensures var (w', l') := Alone(sha, w, Scan, l, script, i); Scans(w', l', raised)
    decreases |script| - i
  {
    if i < |script| && !l.pc.Gone? {
      var (w1, l1) := Proceed(sha, w, Scan, l, script[i]);
      ProceedScans(sha, w, l, script[i], raised);
      AloneScans(sha, w1, l1, script, i + 1, raised);
    }
  }

  /** A script up to a step, and from there. */
  lemma {:induction false} AloneSplits(sha: Hash, w: World, op: Op, l: Local, script: seq<Choice>, i: nat, k: nat)
    requires i <= k <= |script|
    ensures var (w1, l1) := Alone(sha, w, op, l, script[..k], i);
            Alone(sha, w, op, l, script, i) == Alone(sha, w1, op, l1, script, k)
    decreases k - i
  {
    if i < k && !l.pc.Gone? {
      var (w1, l1) := Act(sha, w, op, l, script[i]);
      assert script[..k][i] == script[i];
      AloneSplits(sha, w1, op, l1, script, i + 1, k);
    }
  }

  /**
   A scan that meets one exception, at whichever statement or file operation, fails closed: when the thread has
   ended the object is quarantined, or still pending if it was not claimed yet. It is neither released nor left
   scanning.
   */
  lemma {:induction false} ScanFailsClosed(sha: Hash, w: World, script: seq<Choice>, k: nat)
    requires w.row.state.PendingScan? && w.row.place.Isolation? && !w.outDir
    requires k < |script| && !script[k].ok && OneRaise(script)
    requires var l1 := Alone(sha, w, Scan, BEGIN, script[..k], 0).1; !l1.pc.Gone? && !l1.pc.DropSource?
    ensures var (w', l') := Alone(sha, w, Scan, BEGIN, script, 0);
            l'.pc.Gone? ==> w'.row.state.Quarantined? || w'.row.state.PendingScan?
  {
    var (w1, l1) := Alone(sha, w, Scan, BEGIN, script[..k], 0);
    assert forall j :: 0 <= j < k ==> script[..k][j] == script[j];
    AloneScans(sha, w, BEGIN, script[..k], 0, false);
    AloneSplits(sha, w, Scan, BEGIN, script, 0, k);
    RaiseFails(w1, l1);
    assert Alone(sha, w1, Scan, l1, script, k) == Alone(sha, w1, Scan, Raised(l1), script, k + 1);
    AloneScans(sha, w1, Raised(l1), script, k + 1, true);
  }

  // ------------------------------------------------------------------------------------------
  // The other operations
  // ------------------------------------------------------------------------------------------

  /** The file of one place is gone, that of the other is as it was. */
  ghost predicate Emptied(w: World, w': World, place: Place) {
    && (if place.Isolation? then w'.iso.None? else w'.iso == w.iso)
    && (if place.ReleasedDir? then w'.out.None? && !w'.outDir else w'.out == w.out && w'.outDir == w.outDir)
  }

  lemma {:induction false} MovesAlone(sha: Hash, w: World, op: Op, to: State, script: seq<Choice>)
    requires script != [] && StartOf(w, op, BEGIN) == BEGIN.(pc := Reading(Move(to, ToEnd, ToEnd)))
    requires Calm(script) && |script| >= 3
    ensures var (w', l') := Alone(sha, w, op, BEGIN, script, 0);
            l'.pc.Gone? && if Allowed(w.row.state, to) then Held(w, w', to) else w' == w
  {
    var m := Move(to, ToEnd, ToEnd);
    var l := BEGIN.(pc := Reading(m));
    Forward(sha, w, op, BEGIN, script, 0, w, l);
    if Allowed(w.row.state, to) {
      TransitionAlone(sha, w, op, l, m, script, 1);
    } else {
      Forward(sha, w, op, l, script, 1, w, l.(pc := Gone));
    }
  }

  /**
   A timeout quarantines an object that is being scanned; a rescan returns a quarantined one to the queue; an expiry
   ends any object that is not being scanned; a purge deletes the file an expired object's row names, once. Any
   other object stays as it is.
   */
  lemma {:induction false} MaintenanceAlone(sha: Hash, w: World, op: Op, script: seq<Choice>)
    requires Calm(script) && |script| >= 3 && (op.Timeout? || op.Rescan? || op.Expire? || op.Purge?)
    ensures var (w', l') := Alone(sha, w, op, BEGIN, script, 0);
            l'.pc.Gone? &&
            match op
            case Timeout => if w.row.state.Scanning? then Held(w, w', Quarantined) else w' == w
            case Rescan => if w.row.state.Quarantined? then Held(w, w', PendingScan) else w' == w
            case Expire => if w.row.state.Scanning? || w.row.state.Expired? then w' == w else Held(w, w', Expired)
            case Purge =>
              if w.row.state.Expired? && !w.row.place.Purged? then
                w'.row == w.row.(place := Purged) && Emptied(w, w', w.row.place) && w'.log == w.log
              else w' == w
            case _ => true
  {
    match op
    case Timeout =>
      if w.row.state.Scanning? { MovesAlone(sha, w, op, Quarantined, script); }
      else { Forward(sha, w, op, BEGIN, script, 0, w, BEGIN.(pc := Gone)); }
    case Rescan =>
      if w.row.state.Quarantined? { MovesAlone(sha, w, op, PendingScan, script); }
      else { Forward(sha, w, op, BEGIN, script, 0, w, BEGIN.(pc := Gone)); }
    case Expire => MovesAlone(sha, w, op, Expired, script);
    case Purge => PurgeAlone(sha, w, script);
    case _ =>
  }

  lemma {:induction false} PurgeAlone(sha: Hash, w: World, script: seq<Choice>)
    requires Calm(script) && |script| >= 3
    ensures var (w', l') := Alone(sha, w, Purge, BEGIN, script, 0);
            l'.pc.Gone? &&
            if w.row.state.Expired? && !w.row.place.Purged? then
              w'.row == w.row.(place := Purged) && Emptied(w, w', w.row.place) && w'.log == w.log
            else w' == w
  {
    if w.row.state.Expired? && !w.row.place.Purged? {
      var l := BEGIN.(pc := PurgeFile, path := w.row.place);
      var w1 := if w.row.place.ReleasedDir? then w.(out := None, outDir := false) else w.(iso := None);
      Forward(sha, w, Purge, BEGIN, script, 0, w, l);
      Forward(sha, w, Purge, l, script, 1, w1, l.(pc := PurgeRow));
      Forward(sha, w1, Purge, l.(pc := PurgeRow), script, 2, w1.(row := w1.row.(place := Purged)), l.(pc := Gone));
    } else {
      Forward(sha, w, Purge, BEGIN, script, 0, w, BEGIN.(pc := Gone));
    }
  }

  // ------------------------------------------------------------------------------------------
  // Over runs
  // ------------------------------------------------------------------------------------------

  /** Which state each state can be entered from, in every step of every run. */
  lemma StateFollows(sha: Hash, s: System, e: Event)
    requires Inv(sha, s)
    ensures var before, after := s.w.row.state, Next(sha, s, e).w.row.state;
            after != before ==>
              match after
              case PendingScan => before.Quarantined?
              case Scanning => before.PendingScan?
              case Quarantined => before.Scanning?
              case Released => before.Scanning?
              case Rejected => before.Scanning?
              case Expired => !before.Scanning?
  {
    if e.Step? && e.t in s.threads {
      assert LocalOk(s.w, s.threads[e.t].local);
    }
  }

  /**
   A rejected object is never pending, scanned or released again, a released one never judged again, and an expired
   one stays expired: over every run, whatever is rescanned, delivered twice, timed out, crashed or tampered with.
   */
  lemma {:induction false} VerdictStands(sha: Hash, s: System, events: seq<Event>)
    requires Inv(sha, s)
    ensures var before, after := s.w.row.state, Run(sha, s, events).w.row.state;
            && (before.Rejected? ==> after.Rejected? || after.Expired?)
            && (before.Released? ==> after.Released? || after.Expired?)
            && (before.Expired? ==> after.Expired?)
    decreases |events|
  {
    if events != [] {
      StateFollows(sha, s, events[0]);
      NextKeepsInv(sha, s, events[0]);
      VerdictStands(sha, Next(sha, s, events[0]), events[1..]);
    }
  }

  /** In every reachable store a rejection was committed by a pass over an intact payload with an infected verdict. */
  lemma {:induction false} RejectedForCause(sha: Hash, s: System, i: nat)
    requires Inv(sha, s) && i < |s.w.log| && s.w.log[i].Changed? && s.w.log[i].to.Rejected?
    ensures var pass := s.w.log[i].pass;
            && pass.first && pass.statuses.Some?
            && exists k :: 0 <= k < |pass.statuses.value| && pass.statuses.value[k].Infected?
  {
    assert Justified(s.w.row.typeKnown, s.w.row.typeConflict, s.w.log[i].to, s.w.log[i].pass);
  }

  /**
   The evidence in the log is what a thread has seen: it notes an integrity check only in a step in which the file at
   its path has the recorded length and hash, the first one only under an accepted runtime, and as verdicts what
   the scanners answered in that step.
   */
  lemma EvidenceIsReal(sha: Hash, s: System, t: ThreadId, c: Choice)
    requires t in s.threads
    ensures var l, l' := s.threads[t].local, Next(sha, s, Step(t, c)).threads[t].local;
            var file := if l'.path.Isolation? then s.w.iso else if l'.path.ReleasedDir? then s.w.out else None;
            && ((l'.pass.first && !l.pass.first) || (l'.pass.second && !l.pass.second) ==>
                  file.Some? && |file.value.bytes| == s.w.row.size && sha(file.value.bytes) == s.w.row.digest)
            && (l'.pass.first && !l.pass.first ==> s.w.runtime && l'.path == s.w.row.place)
            && (l'.pass.statuses.Some? && l'.pass.statuses != l.pass.statuses ==>
                  l'.pass.statuses.value == c.statuses)
  {
  }
}
