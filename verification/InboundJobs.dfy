/**
 An inbound object together with the scan queue: when a pending object has no active job, how it comes to that, and
 what ends it. The steps of both sides interleave freely.
 */
module InboundJobs {
  import opened Basics
  import opened Inbound
  import JobQueue

  datatype Site = Site(s: System, q: JobQueue.Queue)

  datatype SiteEvent = OfObject(e: Event) | OfQueue(j: JobQueue.Event)

  function SiteNext(sha: Hash, c: JobQueue.Config, site: Site, e: SiteEvent): Site {
    match e
    case OfObject(e) => site.(s := Next(sha, site.s, e))
    case OfQueue(j) => site.(q := JobQueue.Next(c, site.q, j))
  }

  function SiteRun(sha: Hash, c: JobQueue.Config, site: Site, events: seq<SiteEvent>): Site
    decreases |events|
  {
    if events == [] then site else SiteRun(sha, c, SiteNext(sha, c, site, events[0]), events[1..])
  }

  ghost predicate SiteOk(sha: Hash, c: JobQueue.Config, site: Site) {
    Inv(sha, site.s) && JobQueue.Inv(c, site.q)
  }

  ghost predicate HasJob(site: Site, id: string) {
    JobQueue.HasActive(site.q, JobQueue.ScanObject, id)
  }

  /** The object waits for a scan that nobody will start. */
  ghost predicate Orphaned(site: Site, id: string) {
    site.s.w.row.state.PendingScan? && !HasJob(site, id)
  }

  /** The step commits a transition. */
  predicate Commits(s: System, e: Event) {
    && e.Step? && e.t in s.threads && e.c.ok
    && var pc := s.threads[e.t].local.pc; pc.Swapping? && pc.from == s.w.row.state
  }

  function Target(s: System, e: Event): State
    requires Commits(s, e)
  {
    s.threads[e.t].local.pc.m.to
  }

  predicate Submits(j: JobQueue.Event, id: string) {
    j.Submitting? && j.kind.ScanObject? && j.objectId == id
  }

  /** The statement ends the work on the object's row. */
  ghost predicate EndsJob(c: JobQueue.Config, q: JobQueue.Queue, j: JobQueue.Event, id: string) {
    JobQueue.Finishes(c, q, j, JobQueue.ScanObject, id)
  }

  lemma {:induction false} StateCommits(sha: Hash, s: System, e: Event)
    requires Inv(sha, s)
    ensures Next(sha, s, e).w.row.state == if Commits(s, e) then Target(s, e) else s.w.row.state
    ensures Commits(s, e) ==> Target(s, e) != s.w.row.state
  {
    if e.Step? && e.t in s.threads {
      ActCommits(sha, s.w, s.threads[e.t].op, s.threads[e.t].local, e.c);
      assert LocalOk(s.w, s.threads[e.t].local);
    }
  }

  lemma ActCommits(sha: Hash, w: World, op: Op, l: Local, c: Choice)
    ensures var w' := Act(sha, w, op, l, c).0;
            w'.row.state == if c.ok && l.pc.Swapping? && l.pc.from == w.row.state then l.pc.m.to else w.row.state
  {
  }

  lemma {:induction false} JobStays(c: JobQueue.Config, q: JobQueue.Queue, j: JobQueue.Event, id: string)
    requires JobQueue.Inv(c, q)
    ensures var had, has := JobQueue.HasActive(q, JobQueue.ScanObject, id),
                            JobQueue.HasActive(JobQueue.Next(c, q, j), JobQueue.ScanObject, id);
            && (had && !has <==> EndsJob(c, q, j, id))
            && (!had && has <==> !had && Submits(j, id))
  {
    if EndsJob(c, q, j, id) {
      JobQueue.FinishedHasNone(c, q, j, JobQueue.ScanObject, id);
    } else if JobQueue.HasActive(q, JobQueue.ScanObject, id) {
      JobQueue.StaysActive(c, q, j, JobQueue.ScanObject, id);
    } else if Submits(j, id) {
      JobQueue.SubmitGives(q, JobQueue.ScanObject, id, j.now);
    } else {
      JobQueue.StaysInactive(c, q, j, JobQueue.ScanObject, id);
    }
  }

  /**
   A pending object loses its job in two ways only: a rescan makes it pending before it submits, or a worker ends
   the row that the object had while the object is pending again. It is found again exactly when it is submitted,
   or when it leaves the pending state without a scan job.
   */
  lemma {:induction false} WhatOrphans(sha: Hash, c: JobQueue.Config, site: Site, e: SiteEvent, id: string)
    requires SiteOk(sha, c, site)
    ensures var site' := SiteNext(sha, c, site, e);
            && (!Orphaned(site, id) && Orphaned(site', id) <==>
                  || (e.OfObject? && Commits(site.s, e.e) && Target(site.s, e.e).PendingScan? && !HasJob(site, id))
                  || (e.OfQueue? && site.s.w.row.state.PendingScan? && EndsJob(c, site.q, e.j, id)))
            && (Orphaned(site, id) && !Orphaned(site', id) <==>
                  Orphaned(site, id) && if e.OfObject? then Commits(site.s, e.e) else Submits(e.j, id))
  {
    match e
    case OfObject(e) => StateCommits(sha, site.s, e);
    case OfQueue(j) => JobStays(c, site.q, j, id);
  }

  predicate Rescues(s: System, e: SiteEvent, id: string) {
    if e.OfObject? then Commits(s, e.e) else Submits(e.j, id)
  }

  predicate NothingRescues(sha: Hash, c: JobQueue.Config, site: Site, events: seq<SiteEvent>, id: string)
    decreases |events|
  {
    events == [] ||
    (!Rescues(site.s, events[0], id) && NothingRescues(sha, c, SiteNext(sha, c, site, events[0]), events[1..], id))
  }

  lemma {:induction false} SiteStaysOk(sha: Hash, c: JobQueue.Config, site: Site, e: SiteEvent)
    requires SiteOk(sha, c, site)
    ensures SiteOk(sha, c, SiteNext(sha, c, site, e))
  {
    match e
    case OfObject(e) => NextKeepsInv(sha, site.s, e);
    case OfQueue(j) => JobQueue.NextKeeps(c, site.q, j);
  }

  /** Until then it waits: no worker, claim, retry, purge, crash or restart of the queue gives it a job. */
  lemma {:induction false} OrphanStays(sha: Hash, c: JobQueue.Config, site: Site, events: seq<SiteEvent>, id: string)
    requires SiteOk(sha, c, site) && Orphaned(site, id) && NothingRescues(sha, c, site, events, id)
    ensures Orphaned(SiteRun(sha, c, site, events), id)
    decreases |events|
  {
    if events != [] {
      WhatOrphans(sha, c, site, events[0], id);
      SiteStaysOk(sha, c, site, events[0]);
      OrphanStays(sha, c, SiteNext(sha, c, site, events[0]), events[1..], id);
    }
  }

  // ------------------------------------------------------------------------------------------
  // It happens: a rescan while the worker of the first scan has not ended its row yet
  // ------------------------------------------------------------------------------------------

  function OfObjects(events: seq<Event>): seq<SiteEvent> {
    if events == [] then [] else [OfObject(events[0])] + OfObjects(events[1..])
  }

  lemma {:induction false} SiteAppend(sha: Hash, c: JobQueue.Config, site: Site, first: seq<SiteEvent>,
                                      second: seq<SiteEvent>)
    ensures SiteRun(sha, c, site, first + second) == SiteRun(sha, c, SiteRun(sha, c, site, first), second)
    decreases |first|
  {
    if first == [] {
      assert first + second == second;
    } else {
      assert (first + second)[1..] == first[1..] + second;
      SiteAppend(sha, c, SiteNext(sha, c, site, first[0]), first[1..], second);
    }
  }

  lemma {:induction false} ObjectRuns(sha: Hash, c: JobQueue.Config, site: Site, events: seq<Event>)
    ensures SiteRun(sha, c, site, OfObjects(events)) == site.(s := Run(sha, site.s, events))
    decreases |events|
  {
    if events != [] {
      assert OfObjects(events)[1..] == OfObjects(events[1..]);
      ObjectRuns(sha, c, site.(s := Next(sha, site.s, events[0])), events[1..]);
    }
  }

  lemma QueueRuns(sha: Hash, c: JobQueue.Config, site: Site, j: JobQueue.Event)
    ensures SiteRun(sha, c, site, [OfQueue(j)]) == site.(q := JobQueue.Next(c, site.q, j))
  {
    var site' := SiteNext(sha, c, site, OfQueue(j));
    assert SiteRun(sha, c, site, [OfQueue(j)]) == SiteRun(sha, c, site', [OfQueue(j)][1..]);
  }

  /** Nothing raises, and a scanner reports an error. */
  const UNSURE: Choice := Choice(true, [Failed])

  function Script(n: nat): (script: seq<Choice>)
    ensures |script| == n && forall i :: 0 <= i < n ==> script[i] == UNSURE
  {
    seq(n, i => UNSURE)
  }

  lemma {:induction false} UnsureAlone(sha: Hash, w: World)
    requires w.row.state.PendingScan? && w.runtime && Intact(sha, w, w.row.place)
    ensures var (w', l') := Alone(sha, w, Scan, BEGIN, Script(7), 0); w'.row.state.Quarantined? && l'.pc.Gone?
  {
    BeginAlone(sha, w, Script(7));
    UnsureChecks(sha, Swap(w, PendingScan, Scanning, NO_PASS));
  }

  lemma {:induction false} UnsureChecks(sha: Hash, w: World)
    requires w.row.state.Scanning? && w.runtime && Intact(sha, w, w.row.place)
    ensures var (w', l') := Alone(sha, w, Scan, BEGIN.(pc := FirstCheck), Script(7), 3);
            w'.row.state.Quarantined? && l'.pc.Gone?
  {
    var l1 := Local(RunScanners, NO_PASS.(first := true), w.row.place);
    var l2 := MoveTo(l1.(pass := l1.pass.(statuses := Some([Failed]))), Quarantined);
    assert !AnyInfected([Failed]) && !AllClean([Failed]) by {
      assert [Failed][0].Failed?;
    }
    Forward(sha, w, Scan, BEGIN.(pc := FirstCheck), Script(7), 3, w, l1);
    Forward(sha, w, Scan, l1, Script(7), 4, w, l2);
    TransitionAlone(sha, w, Scan, l2, l2.pc.m, Script(7), 5);
  }

  lemma {:induction false} RescanAlone(sha: Hash, w: World)
    requires w.row.state.Quarantined?
    ensures var (w', l') := Alone(sha, w, Rescan, BEGIN, Script(3), 0); w'.row.state.PendingScan? && l'.pc.Gone?
  {
    var m, script := Move(PendingScan, ToEnd, ToEnd), Script(3);
    Forward(sha, w, Rescan, BEGIN, script, 0, w, BEGIN.(pc := Reading(m)));
    TransitionAlone(sha, w, Rescan, BEGIN.(pc := Reading(m)), m, script, 1);
  }

  function Deliveries(): seq<Event> {
    ([Spawn(0, Scan)] + Steps(0, Script(7), 0)) + ([Spawn(1, Rescan)] + Steps(1, Script(3), 0))
  }

  /** A scan that ends in quarantine, and the rescan that makes the object pending again. */
  lemma {:induction false} RescannedIsPending(sha: Hash, bytes: Bytes)
    ensures var s := Run(sha, Submitted(sha, bytes, true, false), Deliveries());
            && s.w.row.state.PendingScan? && s.threads.Keys == {0, 1}
            && s.threads[0].local.pc.Gone? && s.threads[1].local.pc.Gone?
  {
    var s0 := Submitted(sha, bytes, true, false);
    var first := [Spawn(0, Scan)] + Steps(0, Script(7), 0);
    UnsureAlone(sha, s0.w);
    SpawnedAlone(sha, s0, 0, Scan, Script(7));
    RescanAlone(sha, Run(sha, s0, first).w);
    SpawnedAlone(sha, Run(sha, s0, first), 1, Rescan, Script(3));
    RunAppend(sha, s0, first, [Spawn(1, Rescan)] + Steps(1, Script(3), 0));
  }

  function MissedRescan(id: string, now: int): seq<SiteEvent> {
    [OfQueue(JobQueue.Submitting(JobQueue.ScanObject, id, now))] + ([OfQueue(JobQueue.Claiming(now))]
    + (OfObjects(Deliveries()) + ([OfQueue(JobQueue.Submitting(JobQueue.ScanObject, id, now))]
    + [OfQueue(JobQueue.Completing(0, now))])))
  }

  /**
   The whole run, from the submission of the object: submit, claim, a scan that ends in quarantine, the rescan, whose
   submission is ignored, and the end of the first worker's round. The object is pending, no job and no thread is left.
   */
  lemma {:induction false} OrphanIsReachable(sha: Hash, c: JobQueue.Config, bytes: Bytes, id: string, now: int)
    requires c.maxAttempts >= 1
    ensures var site0 := Site(Submitted(sha, bytes, true, false), JobQueue.EMPTY);
            var site := SiteRun(sha, c, site0, MissedRescan(id, now));
            Orphaned(site, id) && forall t :: t in site.s.threads ==> site.s.threads[t].local.pc.Gone?
  {
    var submit, claim := JobQueue.Submitting(JobQueue.ScanObject, id, now), JobQueue.Claiming(now);
    var complete := JobQueue.Completing(0, now);
    var site0 := Site(Submitted(sha, bytes, true, false), JobQueue.EMPTY);
    var site1 := site0.(q := JobQueue.Next(c, JobQueue.EMPTY, submit));
    var site2 := site1.(q := JobQueue.Next(c, site1.q, claim));
    var site3 := site2.(s := Run(sha, site0.s, Deliveries()));
    var site4 := site3.(q := JobQueue.Next(c, site2.q, submit));
    var last := [OfQueue(submit)] + [OfQueue(complete)];
    QueueRuns(sha, c, site0, submit);
    QueueRuns(sha, c, site1, claim);
    ObjectRuns(sha, c, site2, Deliveries());
    QueueRuns(sha, c, site3, submit);
    QueueRuns(sha, c, site4, complete);
    SiteAppend(sha, c, site3, [OfQueue(submit)], [OfQueue(complete)]);
    SiteAppend(sha, c, site2, OfObjects(Deliveries()), last);
    SiteAppend(sha, c, site1, [OfQueue(claim)], OfObjects(Deliveries()) + last);
    SiteAppend(sha, c, site0, [OfQueue(submit)], [OfQueue(claim)] + (OfObjects(Deliveries()) + last));
    RescannedIsPending(sha, bytes);
    JobIsMissed(c, id, now);
  }

  lemma JobIsMissed(c: JobQueue.Config, id: string, now: int)
    requires c.maxAttempts >= 1
    ensures var submit := JobQueue.Submitting(JobQueue.ScanObject, id, now);
            var q2 := JobQueue.Next(c, JobQueue.Next(c, JobQueue.EMPTY, submit), JobQueue.Claiming(now));
            var q4 := JobQueue.Next(c, JobQueue.Next(c, q2, submit), JobQueue.Completing(0, now));
            !JobQueue.HasActive(q4, JobQueue.ScanObject, id)
  {
    JobQueue.MissedTwice(c, JobQueue.ScanObject, id, now);
  }
}
