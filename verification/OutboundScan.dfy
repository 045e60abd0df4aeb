/**
 One operation on an outbound transfer run on its own: where a scan ends, with and without a failure on the way, and
 what timeouts, dead letters, rescans, expiry and purge do. Over runs: which state follows which, and what evidence
 is real.
 */
module OutboundScan {
  import opened Basics
  import opened Outbound

  const BEGIN: Local := Local(Start, NO_PASS, Isolation)

  /** The file the row names has the recorded length and hash. */
  ghost predicate Authentic(sha: Hash, w: World) {
    match w.row.place
    case Isolation => w.iso.Some? && |w.iso.value.bytes| == w.row.size && sha(w.iso.value.bytes) == w.row.digest
    case Green => w.green.Some? && |w.green.value.bytes| == w.row.size && sha(w.green.value.bytes) == w.row.digest
    case Purged => false
  }

  /** The policy in force is switched on, has the transfer's provider and allows its classification. */
  ghost predicate Permitted(policy: Policy, row: Row) {
    && policy.enabled && policy.provider == row.provider
    && row.classification.Some? && row.classification.value in policy.allowed
  }

  /** The row is the given one; files, callbacks and everything around the transfer are as they were. */
  ghost predicate Held(w: World, w': World, row: Row) {
    && w'.row == row && w'.iso == w.iso && w'.greenDir == w.greenDir && w'.green == w.green
    && w'.callbacks == w.callbacks && w'.policy == w.policy && w'.runtime == w.runtime && w'.dropped == w.dropped
  }

  predicate Obliging(script: seq<Choice>) {
    |script| >= 13 && Calm(script)
  }

  /** Where a scan ends that nothing disturbs and whose scanners, classifier and provider give these answers. */
  ghost predicate ScanEnds(sha: Hash, w: World, statuses: seq<Status>, category: Option<Category>, approvalId: string,
                           w': World)
  {
    var classified := w.row.(classification := if category.Some? then category else w.row.classification);
    if !w.runtime || !Authentic(sha, w) then Held(w, w', w.row.(state := Quarantined))
    else if (exists k :: 0 <= k < |statuses| && !statuses[k].Clean?) || w.row.typeConflict then
      Held(w, w', w.row.(state := Quarantined))
    else if !w.policy.enabled || category.None? || category.value !in w.policy.allowed then
      Held(w, w', classified.(state := Quarantined))
    else Held(w, w', classified.(state := PendingApproval, approvalId := Some(approvalId)))
  }

  // ------------------------------------------------------------------------------------------
  // A scan that nothing disturbs
  // ------------------------------------------------------------------------------------------

  /** Only a pending transfer is scanned. */
  lemma {:induction false} UnscannedAlone(sha: Hash, w: World, script: seq<Choice>)
    requires !w.row.state.PendingScan?
    ensures Alone(sha, w, Scan, BEGIN, script, 0).0 == w
  {
    if |script| >= 1 {
      var m := To(Scanning, ToFirstCheck, ToEnd(false));
      var l := BEGIN.(pc := if script[0].ok then Reading(m) else Gone);
      assert Alone(sha, w, Scan, BEGIN, script, 0) == Alone(sha, w, Scan, l, script, 1);
      if |script| >= 2 && script[0].ok {
        assert Alone(sha, w, Scan, l, script, 1) == Alone(sha, w, Scan, l.(pc := Ending(false)), script, 2);
        EndingStays(sha, w, Scan, l.(pc := Ending(false)), script, 2);
      }
    }
  }

  /** The log of a transfer that waits for approval ends with a clean pass, and its submission. */
  lemma SubmittedClean(w: World)
    requires WorldOk(w) && w.row.state.PendingApproval?
    ensures var log, n := w.log, |w.log|;
            && n >= 4 && log[n - 2].Changed? && log[n - 2].to.Classified?
            && CleanPass(log[n - 2].pass) && !w.row.typeConflict
  {
    var n := |w.log|;
    assert w.log[..n] == w.log;
    ReplayBack(w.log, n, PendingApproval);
    ReplayBack(w.log, n - 1, Classified);
    ReplayBack(w.log, n - 2, Scanning);
  }

  lemma {:induction false} EndingStays(sha: Hash, w: World, op: Op, l: Local, script: seq<Choice>, i: nat)
    requires l.pc.Ending? && !op.Callback?
    ensures var (w', l') := Alone(sha, w, op, l, script, i);
            w' == w && (i < |script| && script[i].ok ==> l'.pc.Gone?)
  {
    if i < |script| {
      assert Alone(sha, w, op, l, script, i) == Alone(sha, w, op, l.(pc := Gone), script, i + 1);
    }
  }

  lemma {:induction false} MoveEnds(sha: Hash, w: World, op: Op, l: Local, m: Move, script: seq<Choice>, i: nat)
    requires l.pc == Reading(m) && Allowed(w.row.state, m.to) && m.next.ToEnd? && i + 3 <= |script| && Calm(script)
    requires !op.Callback?
    ensures var (w', l') := Alone(sha, w, op, l, script, i);
            w' == Swap(w, w.row.state, m, l.pass) && l'.pc.Gone?
  {
    TransitionAlone(sha, w, op, l, m, script, i);
    EndingStays(sha, Swap(w, w.row.state, m, l.pass), op, l.(pc := Resume(m.next)), script, i + 2);
  }

  lemma {:induction false} SubmitAlone(sha: Hash, w: World, l: Local, script: seq<Choice>)
    requires w.row.state.Classified? && l.pc.Submit? && Obliging(script)
    ensures var (w', l') := Alone(sha, w, Scan, l, script, 9);
            && Held(w, w', w.row.(state := PendingApproval, approvalId := Some(script[9].approvalId)))
            && l'.pc.Gone?
  {
    var m := To(PendingApproval, ToEnd(true), ToFailing).(approvalId := Some(script[9].approvalId));
    Forward(sha, w, Scan, l, script, 9, w, l.(pc := Reading(m)));
    MoveEnds(sha, w, Scan, l.(pc := Reading(m)), m, script, 10);
  }

  lemma {:induction false} ClassifyAlone(sha: Hash, w: World, l: Local, script: seq<Choice>)
    requires w.row.state.Scanning? && l.pc.Classify? && Obliging(script)
    requires w.runtime && Authentic(sha, w) && AllClean(script[4].statuses) && !w.row.typeConflict
    ensures var (w', l') := Alone(sha, w, Scan, l, script, 6);
            ScanEnds(sha, w, script[4].statuses, script[6].category, script[9].approvalId, w') && l'.pc.Gone?
  {
    var category := script[6].category;
    if w.policy.enabled && category.Some? && category.value in w.policy.allowed {
      var m := To(Classified, ToSubmit, ToFailing).(category := category);
      var l1 := l.(pass := l.pass.(allowed := true), pc := Reading(m));
      Forward(sha, w, Scan, l, script, 6, w, l1);
      TransitionAlone(sha, w, Scan, l1, m, script, 7);
      SubmitAlone(sha, Swap(w, Scanning, m, l1.pass), l1.(pc := Submit), script);
    } else {
      var m := To(Quarantined, ToEnd(false), ToFailing).(category := category);
      Forward(sha, w, Scan, l, script, 6, w, l.(pc := Reading(m)));
      MoveEnds(sha, w, Scan, l.(pc := Reading(m)), m, script, 7);
    }
  }

  lemma {:induction false} VerdictsEnd(sha: Hash, w: World, l: Local, script: seq<Choice>)
    requires w.row.state.Scanning? && w.runtime && Intact(sha, w, w.row.place) && Obliging(script)
    requires l.pc.RunScanners? && l.path == w.row.place
    ensures var (w', l') := Alone(sha, w, Scan, l, script, 4);
            ScanEnds(sha, w, script[4].statuses, script[6].category, script[9].approvalId, w') && l'.pc.Gone?
  {
    var l2 := l.(pass := l.pass.(statuses := Some(script[4].statuses)), pc := SecondCheck);
    var l3 := l2.(pass := l2.pass.(second := true), pc := Classify);
    if !AllClean(script[4].statuses) || w.row.typeConflict {
      Forward(sha, w, Scan, l, script, 4, w, Quarantine(l));
      MoveEnds(sha, w, Scan, Quarantine(l), Quarantine(l).pc.m, script, 5);
    } else {
      Forward(sha, w, Scan, l, script, 4, w, l2);
      Forward(sha, w, Scan, l2, script, 5, w, l3);
      ClassifyAlone(sha, w, l3, script);
    }
  }

  lemma {:induction false} ChecksEnd(sha: Hash, w: World, script: seq<Choice>)
    requires w.row.state.Scanning? && Obliging(script)
    ensures var (w', l') := Alone(sha, w, Scan, BEGIN.(pc := FirstCheck), script, 3);
            ScanEnds(sha, w, script[4].statuses, script[6].category, script[9].approvalId, w') && l'.pc.Gone?
  {
    var l := BEGIN.(path := w.row.place);
    if !w.runtime || !Intact(sha, w, w.row.place) {
      Forward(sha, w, Scan, BEGIN.(pc := FirstCheck), script, 3, w, Quarantine(l));
      MoveEnds(sha, w, Scan, Quarantine(l), Quarantine(l).pc.m, script, 4);
    } else {
      var l1 := l.(pass := NO_PASS.(first := true), pc := RunScanners);
      Forward(sha, w, Scan, BEGIN.(pc := FirstCheck), script, 3, w, l1);
      VerdictsEnd(sha, w, l1, script);
    }
  }

  lemma {:induction false} ClaimAlone(sha: Hash, w: World, script: seq<Choice>)
    requires w.row.state.PendingScan? && Obliging(script)
    ensures var w1 := Swap(w, PendingScan, To(Scanning, ToFirstCheck, ToEnd(false)), NO_PASS);
            Alone(sha, w, Scan, BEGIN, script, 0) == Alone(sha, w1, Scan, BEGIN.(pc := FirstCheck), script, 3)
  {
    var m := To(Scanning, ToFirstCheck, ToEnd(false));
    Forward(sha, w, Scan, BEGIN, script, 0, w, BEGIN.(pc := Reading(m)));
    TransitionAlone(sha, w, Scan, BEGIN.(pc := Reading(m)), m, script, 1);
  }

  /**
   Every undisturbed scan of a pending transfer, whatever its file is. It waits for approval, with the classification
   and the request it was given, exactly when the runtime is accepted, the payload is the recorded one, every
   scanner says clean, the type does not conflict and the policy allows the classification; otherwise it is
   quarantined, with the classification if it came to one. No file moves.
   */
  lemma {:induction false} ScanOutcome(sha: Hash, w: World, script: seq<Choice>)
    requires w.row.state.PendingScan? && Obliging(script)
    ensures var (w', l') := Alone(sha, w, Scan, BEGIN, script, 0);
            ScanEnds(sha, w, script[4].statuses, script[6].category, script[9].approvalId, w') && l'.pc.Gone?
  {
    var w1 := Swap(w, PendingScan, To(Scanning, ToFirstCheck, ToEnd(false)), NO_PASS);
    ClaimAlone(sha, w, script);
    ChecksEnd(sha, w1, script);
  }

  // ------------------------------------------------------------------------------------------
  // A scan in which one step raises
  // ------------------------------------------------------------------------------------------

  /** At most one step raises. */
  predicate OneRaise(script: seq<Choice>) {
    forall j, k :: 0 <= j < k < |script| && !script[j].ok ==> script[k].ok
  }

  ghost predicate ScanMove(w: World, m: Move, raised: bool) {
    if w.row.state.PendingScan? then m == To(Scanning, ToFirstCheck, ToEnd(false)) && !raised
    else if raised then (w.row.state.Scanning? || w.row.state.Classified?) && m.to.Quarantined? && m.next.ToEnd?
    else
      && m.fail.ToFailing?
      && if w.row.state.Scanning? then (m.to.Quarantined? && m.next.ToEnd?) || (m.to.Classified? && m.next.ToSubmit?)
         else w.row.state.Classified? && m.to.PendingApproval? && m.next.ToEnd?
  }

  /** How far such a scan has come; `raised` when one of its steps has raised. */
  ghost predicate Scans(w: World, l: Local, raised: bool) {
    match l.pc
    case Start => w.row.state.PendingScan? && !raised
    case Reading(m) => ScanMove(w, m, raised)
    case Swapping(from, m) => from == w.row.state && ScanMove(w, m, raised)
    case FirstCheck => w.row.state.Scanning? && !raised
    case RunScanners => w.row.state.Scanning? && !raised
    case SecondCheck => w.row.state.Scanning? && !raised
    case Classify => w.row.state.Scanning? && !raised
    case Submit => w.row.state.Classified? && !raised
    case Failing => (w.row.state.Scanning? || w.row.state.Classified?) && raised
    case Ending(_) => Rests(w, raised)
    case Gone => Rests(w, raised)
    case _ => false
  }

  ghost predicate Rests(w: World, raised: bool) {
    w.row.state.PendingScan? || w.row.state.Quarantined? || (!raised && w.row.state.PendingApproval?)
  }

  lemma RaiseFails(w: World, l: Local)
    requires Scans(w, l, false) && !l.pc.Gone? && !l.pc.Ending?
    ensures Scans(w, Raised(Scan, l), true)
  {
  }

  lemma ProceedScans(sha: Hash, w: World, l: Local, c: Choice, raised: bool)
    requires Scans(w, l, raised) && !l.pc.Gone?
    ensures var (w', l') := Proceed(sha, w, Scan, l, c); Scans(w', l', raised)
  {
  }

  lemma {:induction false} AloneScans(sha: Hash, w: World, l: Local, script: seq<Choice>, i: nat, raised: bool)
    requires Scans(w, l, raised) && forall j :: i <= j < |script| ==> script[j].ok
    ensures var (w', l') := Alone(sha, w, Scan, l, script, i); Scans(w', l', raised)
    decreases |script| - i
  {
    if i < |script| && !l.pc.Gone? {
      var (w1, l1) := Proceed(sha, w, Scan, l, script[i]);
      ProceedScans(sha, w, l, script[i], raised);
      AloneScans(sha, w1, l1, script, i + 1, raised);
    }
  }

  /** A script up to a step, and from there. */
  lemma {:induction false} AloneSplits(sha: Hash, w: World, op: Op, l: Local, script: seq<Choice>, i: nat, k: nat)
    requires i <= k <= |script|
    ensures var (w1, l1) := Alone(sha, w, op, l, script[..k], i);
            Alone(sha, w, op, l, script, i) == Alone(sha, w1, op, l1, script, k)
    decreases k - i
  {
    if i < k && !l.pc.Gone? {
      var (w1, l1) := Act(sha, w, op, l, script[i]);
      assert script[..k][i] == script[i];
      AloneSplits(sha, w1, op, l1, script, i + 1, k);
    }
  }

  /**
   A scan that meets one exception, at whichever statement, check or answer, fails closed: when the thread has ended
   the transfer is quarantined, or still pending if it was not claimed yet. It neither waits for approval nor is it
   left scanning or classified.
   */
  lemma {:induction false} ScanFailsClosed(sha: Hash, w: World, script: seq<Choice>, k: nat)
    requires w.row.state.PendingScan? && k < |script| && !script[k].ok && OneRaise(script)
    requires var l1 := Alone(sha, w, Scan, BEGIN, script[..k], 0).1; !l1.pc.Gone? && !l1.pc.Ending?
    ensures var (w', l') := Alone(sha, w, Scan, BEGIN, script, 0);
            l'.pc.Gone? ==> w'.row.state.Quarantined? || w'.row.state.PendingScan?
  {
    var (w1, l1) := Alone(sha, w, Scan, BEGIN, script[..k], 0);
    assert forall j :: 0 <= j < k ==> script[..k][j] == script[j];
    AloneScans(sha, w, BEGIN, script[..k], 0, false);
    AloneSplits(sha, w, Scan, BEGIN, script, 0, k);
    RaiseFails(w1, l1);
    assert Alone(sha, w1, Scan, l1, script, k) == Alone(sha, w1, Scan, Raised(Scan, l1), script, k + 1);
    AloneScans(sha, w1, Raised(Scan, l1), script, k + 1, true);
  }

  // ------------------------------------------------------------------------------------------
  // The other operations
  // ------------------------------------------------------------------------------------------

  /** The file of one place is gone, that of the other is as it was. */
  ghost predicate Emptied(w: World, w': World, place: Place) {
    && (if place.Isolation? then w'.iso.None? else w'.iso == w.iso)
    && (if place.Green? then w'.green.None? && !w'.greenDir else w'.green == w.green && w'.greenDir == w.greenDir)
  }

  lemma {:induction false} MovesAlone(sha: Hash, w: World, op: Op, to: State, script: seq<Choice>)
    requires StartOf(w, op, BEGIN) == BEGIN.(pc := Reading(To(to, ToEnd(true), ToEnd(false)))) && !op.Callback?
    requires Calm(script) && |script| >= 4
    ensures var (w', l') := Alone(sha, w, op, BEGIN, script, 0);
            l'.pc.Gone? && if Allowed(w.row.state, to) then Held(w, w', w.row.(state := to)) else w' == w
  {
    var m := To(to, ToEnd(true), ToEnd(false));
    var l := BEGIN.(pc := Reading(m));
    Forward(sha, w, op, BEGIN, script, 0, w, l);
    if Allowed(w.row.state, to) {
      MoveEnds(sha, w, op, l, m, script, 1);
    } else {
      Forward(sha, w, op, l, script, 1, w, l.(pc := Ending(false)));
      EndingStays(sha, w, op, l.(pc := Ending(false)), script, 2);
    }
  }

  /** States with a scan under way. */
  ghost predicate Busy(state: State) {
    state.Scanning? || state.Classified?
  }

  /**
   A timeout quarantines a transfer whose scan is under way, and a dead letter also one whose scan is due; a rescan
   returns a quarantined one to the queue; an expiry ends any transfer whose scan is not under way; a purge deletes
   the file an expired transfer's row names, once. Any other transfer stays as it is.
   */
  lemma {:induction false} MaintenanceAlone(sha: Hash, w: World, op: Op, script: seq<Choice>)
    requires op.Timeout? || op.Rescan? || op.Expire? || op.Purge? || op.DeadLetter?
    requires Calm(script) && |script| >= 7
    ensures var (w', l') := Alone(sha, w, op, BEGIN, script, 0);
            l'.pc.Gone? &&
            match op
            case Timeout => if Busy(w.row.state) then Held(w, w', w.row.(state := Quarantined)) else w' == w
            case DeadLetter =>
              if Busy(w.row.state) || w.row.state.PendingScan? then Held(w, w', w.row.(state := Quarantined))
              else w' == w
            case Rescan =>
              if w.row.state.Quarantined? then Held(w, w', w.row.(state := PendingScan)) else w' == w
            case Expire =>
              if Busy(w.row.state) || w.row.state.Expired? then w' == w
              else Held(w, w', w.row.(state := Expired))
            case Purge =>
              if w.row.state.Expired? && !w.row.place.Purged? then
                w'.row == w.row.(place := Purged) && Emptied(w, w', w.row.place) && w'.log == w.log
              else w' == w
            case _ => true
  {
    match op
    case Timeout =>
      if Busy(w.row.state) { MovesAlone(sha, w, op, Quarantined, script); }
      else { Forward(sha, w, op, BEGIN, script, 0, w, BEGIN.(pc := Gone)); }
    case Rescan =>
      if w.row.state.Quarantined? { MovesAlone(sha, w, op, PendingScan, script); }
      else { Forward(sha, w, op, BEGIN, script, 0, w, BEGIN.(pc := Gone)); }
    case Expire => MovesAlone(sha, w, op, Expired, script);
    case Purge => PurgeAlone(sha, w, script);
    case DeadLetter => DeadLetterAlone(sha, w, script);
    case _ =>
  }

  lemma {:induction false} PurgeAlone(sha: Hash, w: World, script: seq<Choice>)
    requires Calm(script) && |script| >= 3
    ensures var (w', l') := Alone(sha, w, Purge, BEGIN, script, 0);
            l'.pc.Gone? &&
            if w.row.state.Expired? && !w.row.place.Purged? then
              w'.row == w.row.(place := Purged) && Emptied(w, w', w.row.place) && w'.log == w.log
            else w' == w
  {
    if w.row.state.Expired? && !w.row.place.Purged? {
      var l := BEGIN.(pc := PurgeFile, path := w.row.place);
      Forward(sha, w, Purge, BEGIN, script, 0, w, l);
      UnlinkAlone(sha, w, l, script, 1);
    } else {
      Forward(sha, w, Purge, BEGIN, script, 0, w, BEGIN.(pc := Gone));
    }
  }

  lemma {:induction false} UnlinkAlone(sha: Hash, w: World, l: Local, script: seq<Choice>, i: nat)
    requires l.pc.PurgeFile? && !l.path.Purged? && Calm(script) && |script| >= i + 2
    ensures var (w', l') := Alone(sha, w, Purge, l, script, i);
            l'.pc.Gone? && w'.row == w.row.(place := Purged) && Emptied(w, w', l.path) && w'.log == w.log
  {
    var w1 := if l.path.Green? then w.(green := None, greenDir := false) else w.(iso := None);
    Forward(sha, w, Purge, l, script, i, w1, l.(pc := PurgeRow));
    Forward(sha, w1, Purge, l.(pc := PurgeRow), script, i + 1, w1.(row := w1.row.(place := Purged)), l.(pc := Gone));
  }

  lemma {:induction false} DeadLetterAlone(sha: Hash, w: World, script: seq<Choice>)
    requires Calm(script) && |script| >= 7
    ensures var (w', l') := Alone(sha, w, DeadLetter, BEGIN, script, 0);
            l'.pc.Gone? &&
            if Busy(w.row.state) || w.row.state.PendingScan? then Held(w, w', w.row.(state := Quarantined)) else w' == w
  {
    var m := To(Scanning, ToDeadSecond, ToEnd(false));
    if w.row.state.PendingScan? {
      Forward(sha, w, DeadLetter, BEGIN, script, 0, w, BEGIN.(pc := Reading(m)));
      TransitionAlone(sha, w, DeadLetter, BEGIN.(pc := Reading(m)), m, script, 1);
      DeadSecondAlone(sha, Swap(w, PendingScan, m, NO_PASS), script, 3);
    } else {
      Forward(sha, w, DeadLetter, BEGIN, script, 0, w, BEGIN.(pc := DeadSecond));
      DeadSecondAlone(sha, w, script, 1);
    }
  }

  lemma {:induction false} DeadSecondAlone(sha: Hash, w: World, script: seq<Choice>, i: nat)
    requires i + 4 <= |script| && Calm(script)
    ensures var (w', l') := Alone(sha, w, DeadLetter, BEGIN.(pc := DeadSecond), script, i);
            l'.pc.Gone? && if Busy(w.row.state) then Held(w, w', w.row.(state := Quarantined)) else w' == w
  {
    var m := To(Quarantined, ToEnd(true), ToEnd(false));
    if Busy(w.row.state) {
      Forward(sha, w, DeadLetter, BEGIN.(pc := DeadSecond), script, i, w, BEGIN.(pc := Reading(m)));
      MoveEnds(sha, w, DeadLetter, BEGIN.(pc := Reading(m)), m, script, i + 1);
    } else {
      Forward(sha, w, DeadLetter, BEGIN.(pc := DeadSecond), script, i, w, BEGIN.(pc := Gone));
    }
  }

  // ------------------------------------------------------------------------------------------
  // Over runs
  // ------------------------------------------------------------------------------------------

  /** Which state each state can be entered from, in every step of every run. */
  lemma StateFollows(sha: Hash, s: System, e: Event)
    requires Inv(sha, s)
    ensures var before, after := s.w.row.state, Next(sha, s, e).w.row.state;
            after != before ==>
              match after
              case PendingScan => before.Quarantined?
              case Scanning => before.PendingScan?
              case Quarantined => before.Scanning? || before.Classified?
              case Classified => before.Scanning?
              case PendingApproval => before.Classified?
              case Approved => before.PendingApproval?
              case ApprovalRejected => before.PendingApproval?
              case ReleasedToGreen => before.Approved?
              case Expired => !before.Scanning? && !before.Classified?
  {
    if e.Step? && e.t in s.threads {
      assert LocalOk(s.w, s.threads[e.t].op, s.threads[e.t].local);
      StepFollows(sha, s.w, s.threads[e.t].op, s.threads[e.t].local, e.c);
    }
  }

  lemma StepFollows(sha: Hash, w: World, op: Op, l: Local, c: Choice)
    requires LocalOk(w, op, l)
    ensures var after := Act(sha, w, op, l, c).0.row.state;
            after != w.row.state ==> Allowed(w.row.state, after)
  {
    if Raises(l, c) {
    } else if InRelease(l.pc) {
      ReleaseKeepsState(sha, w, l);
    } else if !InScan(l.pc) && !InDecision(l.pc) {
      CommonFollows(w, op, l);
    }
  }

  lemma ReleaseKeepsState(sha: Hash, w: World, l: Local)
    ensures ReleaseStep(sha, w, l).0.row.state == w.row.state
  {
  }

  lemma CommonFollows(w: World, op: Op, l: Local)
    requires LocalOk(w, op, l)
    ensures var after := CommonStep(w, op, l).0.row.state;
            after != w.row.state ==> Allowed(w.row.state, after)
  {
  }

  /**
   The evidence in the log is what a thread has seen. It notes an integrity check only in a step in which the file at
   its path has the recorded length and hash, the first one only under an accepted runtime; as verdicts what the
   scanners answered; a classification as allowed only when the policy in force is switched on and allows it; and a
   release as permitted only when the runtime is accepted, the transfer approved, and the policy in force has its
   provider and allows its classification.
   */
  lemma EvidenceIsReal(sha: Hash, s: System, t: ThreadId, c: Choice)
    requires t in s.threads
    ensures var l, l' := s.threads[t].local, Next(sha, s, Step(t, c)).threads[t].local;
            var file := if l'.path.Isolation? then s.w.iso else if l'.path.Green? then s.w.green else None;
            && (((l'.pass.first && !l.pass.first) || (l'.pass.second && !l.pass.second)
                 || (l'.pass.verified && !l.pass.verified)) ==>
                  file.Some? && |file.value.bytes| == s.w.row.size && sha(file.value.bytes) == s.w.row.digest)
            && (l'.pass.first && !l.pass.first ==> s.w.runtime && l'.path == s.w.row.place)
            && (l'.pass.statuses.Some? && l'.pass.statuses != l.pass.statuses ==>
                  l'.pass.statuses.value == c.statuses)
            && (l'.pass.allowed && !l.pass.allowed ==>
                  s.w.policy.enabled && c.category.Some? && c.category.value in s.w.policy.allowed)
            && (l'.pass.permitted && !l.pass.permitted ==>
                  s.w.runtime && s.w.row.state.Approved? && Permitted(s.w.policy, s.w.row))
  {
    EvidenceStep(sha, s.w, s.threads[t].op, s.threads[t].local, c);
  }

  /** What a step may add to the evidence, and on what. */
  ghost predicate Noted(sha: Hash, w: World, l: Local, c: Choice, l': Local) {
    && (l'.pass.first ==> l.pass.first || (w.runtime && l'.path == w.row.place && Intact(sha, w, l'.path)))
    && (l'.pass.second ==> l.pass.second || Intact(sha, w, l'.path))
    && (l'.pass.verified ==> l.pass.verified || Intact(sha, w, l'.path))
    && (l'.pass.statuses == l.pass.statuses || l'.pass.statuses.None? || l'.pass.statuses == Some(c.statuses))
    && (l'.pass.allowed && !l.pass.allowed ==>
          w.policy.enabled && c.category.Some? && c.category.value in w.policy.allowed)
    && (l'.pass.permitted && !l.pass.permitted ==>
          w.runtime && w.row.state.Approved? && Permits(w.policy, w.row))
  }

  lemma EvidenceStep(sha: Hash, w: World, op: Op, l: Local, c: Choice)
    ensures Noted(sha, w, l, c, Act(sha, w, op, l, c).1)
  {
    if Raises(l, c) {
    } else if InScan(l.pc) {
      ScanNotes(sha, w, l, c);
    } else if InRelease(l.pc) {
      ReleaseNotes(sha, w, l);
    } else if InDecision(l.pc) {
      DecisionNotes(sha, w, op, l, c);
    } else {
      CommonNotes(w, op, l);
    }
  }

  lemma ScanNotes(sha: Hash, w: World, l: Local, c: Choice)
    ensures Noted(sha, w, l, c, ScanStep(sha, w, l, c))
  {
  }

  lemma ReleaseNotes(sha: Hash, w: World, l: Local)
    ensures var l' := ReleaseStep(sha, w, l).1;
            && l'.pass == l.pass.(permitted := l'.pass.permitted)
            && (l'.pass.permitted && !l.pass.permitted ==>
                  w.runtime && w.row.state.Approved? && Permits(w.policy, w.row))
  {
  }

  lemma DecisionNotes(sha: Hash, w: World, op: Op, l: Local, c: Choice)
    ensures var l' := DeciderStep(sha, w, op, l, c).1;
            && l'.pass == l.pass.(verified := l'.pass.verified)
            && (l'.pass.verified && !l.pass.verified ==> Intact(sha, w, l'.path))
  {
    if l.pc.VerifyForApproval? {
      VerificationNotes(sha, w, op, l, c);
    }
  }

  lemma VerificationNotes(sha: Hash, w: World, op: Op, l: Local, c: Choice)
    requires l.pc.VerifyForApproval?
    ensures DecisionStep(sha, w, op, l, c).pass == if Intact(sha, w, l.path) then l.pass.(verified := true) else l.pass
    ensures DecisionStep(sha, w, op, l, c).path == l.path
  {
  }

  lemma CommonNotes(w: World, op: Op, l: Local)
    ensures CommonStep(w, op, l).1.pass == l.pass
  {
  }
}
