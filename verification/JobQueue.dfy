/**
 The durable scan queue: rows of the scan_jobs table, leases fenced by an owner token, retries with
 backoff, dead letters. Every statement is one step; workers of a lost lease may act at any later time.
 */
module JobQueue {
  import opened Basics

  datatype Kind = ScanObject | ScanOutbound

  datatype JobState = Queued | Running | Completed | Failed

  type JobId = nat

  /** Owner tokens are the position of the claim that drew them: no two claims draw the same one. */
  type Owner = nat

  /** `interruptions` is not a column: it counts the lease expiries and restarts the row suffered. */
  datatype Job = Job(id: JobId, kind: Kind, objectId: string, state: JobState, attempts: nat, availableAt: int,
                     leaseUntil: Option<int>, owner: Option<Owner>, updatedAt: int, lastError: string,
                     interruptions: nat)

  /** What a worker holds after a claim. */
  datatype Ticket = Ticket(id: JobId, kind: Kind, objectId: string, attempts: nat)

  datatype Config = Config(leaseSeconds: int, maxAttempts: nat)

  /** Rows in id order, the next id, the tickets handed out so far, the rows whose dead letter was due. */
  datatype Queue = Queue(jobs: seq<Job>, nextId: JobId, issued: seq<Ticket>, dead: seq<JobId>)

  const EMPTY: Queue := Queue([], 1, [], [])

  predicate Active(j: Job) {
    j.state.Queued? || j.state.Running?
  }

  predicate Targets(j: Job, kind: Kind, objectId: string) {
    j.kind == kind && j.objectId == objectId
  }

  predicate Eligible(j: Job, now: int) {
    || (j.state.Queued? && j.availableAt <= now)
    || (j.state.Running? && j.leaseUntil.Some? && j.leaseUntil.value <= now)
  }

  predicate HeldBy(j: Job, id: JobId, owner: Owner) {
    j.id == id && j.state.Running? && j.owner == Some(owner)
  }

  predicate Purgeable(j: Job, before: int) {
    !Active(j) && j.updatedAt <= before
  }

  /** Index of the first row that satisfies the condition, or the number of rows. */
  function First(jobs: seq<Job>, p: Job -> bool): (i: nat)
    ensures i <= |jobs| && (i < |jobs| ==> p(jobs[i]))
    ensures forall k :: 0 <= k < i ==> !p(jobs[k])
  {
    if jobs == [] || p(jobs[0]) then 0 else 1 + First(jobs[1..], p)
  }

  function Pow2(n: nat): (p: nat)
    ensures p >= 1
  {
    if n == 0 then 1 else 2 * Pow2(n - 1)
  }

  function Fresh(id: JobId, kind: Kind, objectId: string, now: int): Job {
    Job(id, kind, objectId, Queued, 0, now, None, None, now, "", 0)
  }

  function Taken(c: Config, j: Job, owner: Owner, now: int): Job {
    j.(state := Running, attempts := j.attempts + 1, leaseUntil := Some(now + c.leaseSeconds), owner := Some(owner),
       updatedAt := now, interruptions := if j.state.Running? then j.interruptions + 1 else j.interruptions)
  }

  function Ended(j: Job, state: JobState, now: int): Job {
    j.(state := state, leaseUntil := None, owner := None, updatedAt := now)
  }

  function Restarted(j: Job, now: int): Job {
    if j.state.Running? then
      Ended(j, Queued, now).(availableAt := now, lastError := "worker restart", interruptions := j.interruptions + 1)
    else j
  }

  function SetRow(q: Queue, i: nat, j: Job): Queue
    requires i < |q.jobs|
  {
    q.(jobs := q.jobs[i := j])
  }

  function TicketOf(j: Job): Ticket {
    Ticket(j.id, j.kind, j.objectId, j.attempts)
  }

  // ------------------------------------------------------------------------------------------
  // The statements
  // ------------------------------------------------------------------------------------------

  /** INSERT OR IGNORE under the partial unique index on active (kind, object_id). */
  function Submit(q: Queue, kind: Kind, objectId: string, now: int): Queue {
    if First(q.jobs, j => Active(j) && Targets(j, kind, objectId)) < |q.jobs| then q
    else q.(jobs := q.jobs + [Fresh(q.nextId, kind, objectId, now)], nextId := q.nextId + 1)
  }

  function Claim(c: Config, q: Queue, now: int): Queue {
    var i := First(q.jobs, j => Eligible(j, now));
    if i == |q.jobs| then q
    else
      var j := Taken(c, q.jobs[i], |q.issued|, now);
      SetRow(q, i, j).(issued := q.issued + [TicketOf(j)])
  }

  /** The row a ticket still holds, or the number of rows when the lease is lost. */
  function Held(q: Queue, k: Owner): (i: nat)
    ensures i <= |q.jobs|
    ensures i < |q.jobs| ==> k < |q.issued| && HeldBy(q.jobs[i], q.issued[k].id, k)
  {
    if k < |q.issued| then First(q.jobs, j => HeldBy(j, q.issued[k].id, k)) else |q.jobs|
  }

  function Complete(q: Queue, k: Owner, now: int): Queue {
    var i := Held(q, k);
    if i == |q.jobs| then q else SetRow(q, i, Ended(q.jobs[i], Completed, now))
  }

  function Renew(c: Config, q: Queue, k: Owner, now: int): Queue {
    var i := Held(q, k);
    if i == |q.jobs| then q
    else SetRow(q, i, q.jobs[i].(leaseUntil := Some(now + c.leaseSeconds), updatedAt := now))
  }

  function Delay(attempts: nat): int {
    Min(60, Pow2(attempts))
  }

  /** The decision reads the attempts of the ticket; the update is fenced by the owner. */
  function RetryOrFail(c: Config, q: Queue, k: Owner, error: string, now: int): Queue {
    var i := Held(q, k);
    if i == |q.jobs| then q
    else if q.issued[k].attempts < c.maxAttempts then
      SetRow(q, i, Ended(q.jobs[i], Queued, now).(availableAt := now + Delay(q.issued[k].attempts), lastError := error))
    else
      SetRow(q, i, Ended(q.jobs[i], Failed, now).(lastError := error)).(dead := q.dead + [q.jobs[i].id])
  }

  function Purge(q: Queue, before: int): (q': Queue)
    ensures q'.nextId == q.nextId && q'.issued == q.issued && q'.dead == q.dead
    decreases |q.jobs|
  {
    var i := First(q.jobs, j => Purgeable(j, before));
    if i == |q.jobs| then q else Purge(Without(q, i), before)
  }

  function Without(q: Queue, i: nat): Queue
    requires i < |q.jobs|
  {
    q.(jobs := q.jobs[..i] + q.jobs[i + 1..])
  }

  function Restart(q: Queue, now: int): Queue {
    q.(jobs := seq(|q.jobs|, i requires 0 <= i < |q.jobs| => Restarted(q.jobs[i], now)))
  }

  datatype Event =
    | Submitting(kind: Kind, objectId: string, now: int)
    | Claiming(now: int)
    | Completing(k: Owner, now: int)
    | Renewing(k: Owner, now: int)
    | Raising(k: Owner, error: string, now: int)
    | Purging(before: int)
    | Restarting(now: int)

  function Next(c: Config, q: Queue, e: Event): Queue {
    match e
    case Submitting(kind, objectId, now) => Submit(q, kind, objectId, now)
    case Claiming(now) => Claim(c, q, now)
    case Completing(k, now) => Complete(q, k, now)
    case Renewing(k, now) => Renew(c, q, k, now)
    case Raising(k, error, now) => RetryOrFail(c, q, k, error, now)
    case Purging(before) => Purge(q, before)
    case Restarting(now) => Restart(q, now)
  }

  function Run(c: Config, q: Queue, events: seq<Event>): Queue
    decreases |events|
  {
    if events == [] then q else Run(c, Next(c, q, events[0]), events[1..])
  }

  // ------------------------------------------------------------------------------------------
  // The invariant
  // ------------------------------------------------------------------------------------------

  ghost predicate JobOk(c: Config, issued: seq<Ticket>, j: Job) {
    && (j.state.Running? <==> j.owner.Some?)
    && (j.state.Running? ==> j.attempts >= 1 && j.leaseUntil.Some?)
    && (j.state.Running? ==> j.owner.value < |issued| && issued[j.owner.value] == TicketOf(j))
    && j.attempts <= c.maxAttempts + j.interruptions
    && (j.state.Queued? ==> j.attempts < c.maxAttempts + j.interruptions)
  }

  ghost predicate OneActive(jobs: seq<Job>) {
    forall i, k :: 0 <= i < k < |jobs| && Active(jobs[i]) && Active(jobs[k]) ==>
      !Targets(jobs[i], jobs[k].kind, jobs[k].objectId)
  }

  ghost predicate Ascending(jobs: seq<Job>) {
    forall i, k :: 0 <= i < k < |jobs| ==> jobs[i].id < jobs[k].id
  }

  ghost predicate DeadOk(q: Queue) {
    && (forall i, k :: 0 <= i < k < |q.dead| ==> q.dead[i] != q.dead[k])
    && (forall i :: 0 <= i < |q.dead| ==> q.dead[i] < q.nextId)
    && (forall i :: 0 <= i < |q.jobs| ==> (q.jobs[i].state.Failed? <==> q.jobs[i].id in q.dead))
  }

  ghost predicate Inv(c: Config, q: Queue) {
    && c.maxAttempts >= 1
    && Ascending(q.jobs) && OneActive(q.jobs) && DeadOk(q)
    && (forall i :: 0 <= i < |q.jobs| ==> q.jobs[i].id < q.nextId && JobOk(c, q.issued, q.jobs[i]))
  }

  /** One row changes its lease or state, keeps its target, and does not become active again. */
  lemma {:induction false} RowUpdateKeeps(c: Config, q: Queue, i: nat, j: Job, issued: seq<Ticket>)
    requires Inv(c, q) && i < |q.jobs| && q.issued <= issued
    requires j.id == q.jobs[i].id && Targets(j, q.jobs[i].kind, q.jobs[i].objectId)
    requires Active(q.jobs[i]) && JobOk(c, issued, j)
    ensures var q' := SetRow(q, i, j).(issued := issued, dead := if j.state.Failed? then q.dead + [j.id] else q.dead);
            Inv(c, q')
  {
  }

  lemma SubmitKeeps(c: Config, q: Queue, kind: Kind, objectId: string, now: int)
    requires Inv(c, q)
    ensures Inv(c, Submit(q, kind, objectId, now))
  {
  }

  lemma ClaimKeeps(c: Config, q: Queue, now: int)
    requires Inv(c, q)
    ensures Inv(c, Claim(c, q, now))
  {
    var i := First(q.jobs, j => Eligible(j, now));
    if i < |q.jobs| {
      var j := Taken(c, q.jobs[i], |q.issued|, now);
      RowUpdateKeeps(c, q, i, j, q.issued + [TicketOf(j)]);
    }
  }

  lemma FencedKeeps(c: Config, q: Queue, e: Event)
    requires Inv(c, q) && (e.Completing? || e.Renewing? || e.Raising?)
    ensures Inv(c, Next(c, q, e))
  {
    var i := Held(q, e.k);
    if i < |q.jobs| {
      var j := Next(c, q, e).jobs[i];
      RowUpdateKeeps(c, q, i, j, q.issued);
    }
  }

  lemma WithoutKeeps(c: Config, q: Queue, i: nat)
    requires Inv(c, q) && i < |q.jobs|
    ensures Inv(c, Without(q, i))
  {
  }

  lemma {:induction false} PurgeKeeps(c: Config, q: Queue, before: int)
    requires Inv(c, q)
    ensures Inv(c, Purge(q, before))
    decreases |q.jobs|
  {
    var i := First(q.jobs, j => Purgeable(j, before));
    if i < |q.jobs| {
      WithoutKeeps(c, q, i);
      PurgeKeeps(c, Without(q, i), before);
    }
  }

  lemma RestartKeeps(c: Config, q: Queue, now: int)
    requires Inv(c, q)
    ensures Inv(c, Restart(q, now))
  {
  }

  lemma NextKeeps(c: Config, q: Queue, e: Event)
    requires Inv(c, q)
    ensures Inv(c, Next(c, q, e))
  {
    match e
    case Submitting(kind, objectId, now) => SubmitKeeps(c, q, kind, objectId, now);
    case Claiming(now) => ClaimKeeps(c, q, now);
    case Purging(before) => PurgeKeeps(c, q, before);
    case Restarting(now) => RestartKeeps(c, q, now);
    case _ => FencedKeeps(c, q, e);
  }

  lemma {:induction false} RunKeeps(c: Config, q: Queue, events: seq<Event>)
    requires Inv(c, q)
    ensures Inv(c, Run(c, q, events))
    decreases |events|
  {
    if events != [] {
      NextKeeps(c, q, events[0]);
      RunKeeps(c, Next(c, q, events[0]), events[1..]);
    }
  }

  // ------------------------------------------------------------------------------------------
  // What holds over every run
  // ------------------------------------------------------------------------------------------

  lemma EmptyOk(c: Config)
    requires c.maxAttempts >= 1
    ensures Inv(c, EMPTY)
  {
  }

  /**
   For every row of every reachable queue: its attempts exceed the limit by no more than the interruptions
   it suffered, and its dead letter was due exactly once if it is failed and never otherwise.
   */
  lemma {:induction false} ReachableRow(c: Config, events: seq<Event>, i: nat)
    requires c.maxAttempts >= 1 && i < |Run(c, EMPTY, events).jobs|
    ensures var q := Run(c, EMPTY, events);
            && q.jobs[i].attempts <= c.maxAttempts + q.jobs[i].interruptions
            && multiset(q.dead)[q.jobs[i].id] == if q.jobs[i].state.Failed? then 1 else 0
  {
    EmptyOk(c);
    RunKeeps(c, EMPTY, events);
    var q := Run(c, EMPTY, events);
    CountDistinct(q.dead, q.jobs[i].id);
  }

  /** In every reachable queue the rows stand in id order, and an object has at most one active row. */
  lemma {:induction false} ReachableRows(c: Config, events: seq<Event>, i: nat, k: nat)
    requires c.maxAttempts >= 1 && i < |Run(c, EMPTY, events).jobs| && k < |Run(c, EMPTY, events).jobs|
    ensures var q := Run(c, EMPTY, events);
            && (q.jobs[i].id < q.jobs[k].id <==> i < k)
            && (Active(q.jobs[i]) && Active(q.jobs[k]) && Targets(q.jobs[i], q.jobs[k].kind, q.jobs[k].objectId) ==>
                  i == k)
  {
    EmptyOk(c);
    RunKeeps(c, EMPTY, events);
  }

  lemma {:induction false} CountDistinct(s: seq<JobId>, x: JobId)
    requires forall i, k :: 0 <= i < k < |s| ==> s[i] != s[k]
    ensures multiset(s)[x] == if x in s then 1 else 0
  {
    if s != [] {
      assert s == s[..|s| - 1] + [s[|s| - 1]];
      CountDistinct(s[..|s| - 1], x);
    }
  }

  /** A row a worker may take: queued and available, or running with a lease that has run out. */
  ghost predicate Due(j: Job, now: int) {
    if j.state.Queued? then j.availableAt <= now
    else j.state.Running? && j.leaseUntil.Some? && j.leaseUntil.value <= now
  }

  /** Row i is due and no row before it is. */
  ghost predicate OldestDue(q: Queue, i: nat, now: int) {
    i < |q.jobs| && Due(q.jobs[i], now) && forall k :: 0 <= k < i ==> !Due(q.jobs[k], now)
  }

  lemma DueIsEligible(j: Job, now: int)
    ensures Due(j, now) <==> Eligible(j, now)
  {
  }

  /**
   A claim takes the row with the lowest id among those that are queued and available or running with a lease that
   has run out, and only such a row.
   */
  lemma ClaimTakesOldest(c: Config, q: Queue, now: int)
    requires Inv(c, q)
    ensures var q' := Claim(c, q, now);
            if exists j: Job :: j in q.jobs && Due(j, now) then
              && |q'.issued| == |q.issued| + 1
              && (exists j :: j in q.jobs && Due(j, now) && j.id == q'.issued[|q.issued|].id)
              && (forall j :: j in q.jobs && Due(j, now) ==> q'.issued[|q.issued|].id <= j.id)
            else q' == q
  {
    var i := First(q.jobs, j => Eligible(j, now));
    forall j | j in q.jobs ensures Due(j, now) <==> Eligible(j, now) {
      DueIsEligible(j, now);
    }
    if i < |q.jobs| {
      assert q.jobs[i] in q.jobs;
    }
  }

  lemma OldestIsFirst(q: Queue, i: nat, now: int)
    requires OldestDue(q, i, now)
    ensures First(q.jobs, j => Eligible(j, now)) == i
  {
    forall k | 0 <= k < |q.jobs| ensures Due(q.jobs[k], now) <==> Eligible(q.jobs[k], now) {
      DueIsEligible(q.jobs[k], now);
    }
  }

  /** A purge leaves exactly the rows that are not completed or failed, or have changed since the given time. */
  lemma {:induction false} PurgeExact(q: Queue, before: int, j: Job)
    ensures j in Purge(q, before).jobs <==>
              j in q.jobs && !((j.state.Completed? || j.state.Failed?) && j.updatedAt <= before)
    decreases |q.jobs|
  {
    var i := First(q.jobs, j => Purgeable(j, before));
    if i < |q.jobs| {
      var r := Without(q, i);
      assert q.jobs == q.jobs[..i] + [q.jobs[i]] + q.jobs[i + 1..];
      PurgeExact(r, before, j);
    } else if j in q.jobs {
      var k :| 0 <= k < |q.jobs| && q.jobs[k] == j;
    }
  }

  // ------------------------------------------------------------------------------------------
  // Lost leases
  // ------------------------------------------------------------------------------------------

  ghost predicate Lost(q: Queue, k: Owner) {
    k < |q.issued| && forall j :: j in q.jobs ==> j.owner != Some(k)
  }

  lemma NextKeepsLost(c: Config, q: Queue, e: Event, k: Owner)
    requires Inv(c, q) && Lost(q, k)
    ensures Lost(Next(c, q, e), k)
  {
    var q' := Next(c, q, e);
    if e.Purging? {
      forall j | j in q'.jobs ensures j in q.jobs {
        PurgeExact(q, e.before, j);
      }
    } else {
      forall i | 0 <= i < |q'.jobs| ensures q'.jobs[i].owner != Some(k) {
        assert i < |q.jobs| ==> q.jobs[i] in q.jobs;
      }
    }
  }

  /**
   A worker whose lease was reclaimed, or whose row is finished, requeued or purged, can never again
   complete, renew, requeue or fail the row, whatever happens in between.
   */
  lemma {:induction false} LostLeaseIsFenced(c: Config, q: Queue, events: seq<Event>, k: Owner, now: int, error: string)
    requires Inv(c, q) && Lost(q, k)
    ensures var q' := Run(c, q, events);
            && Complete(q', k, now) == q' && Renew(c, q', k, now) == q' && RetryOrFail(c, q', k, error, now) == q'
    decreases |events|
  {
    if events == [] {
      forall i | 0 <= i < |q.jobs| ensures !HeldBy(q.jobs[i], q.issued[k].id, k) {
        assert q.jobs[i] in q.jobs;
      }
    } else {
      NextKeeps(c, q, events[0]);
      NextKeepsLost(c, q, events[0], k);
      LostLeaseIsFenced(c, Next(c, q, events[0]), events[1..], k, now, error);
    }
  }

  /** The ticket that holds a row loses it to a claim of the expired lease, a restart, or its own end of work. */
  lemma LeaseIsLost(c: Config, q: Queue, e: Event, k: Owner)
    requires Inv(c, q) && Held(q, k) < |q.jobs|
    requires match e
             case Claiming(now) => OldestDue(q, Held(q, k), now)
             case Restarting(_) => true
             case Completing(owner, _) => owner == k
             case Raising(owner, _, _) => owner == k
             case _ => false
    ensures Lost(Next(c, q, e), k)
  {
    var h, q' := Held(q, k), Next(c, q, e);
    if e.Claiming? {
      OldestIsFirst(q, h, e.now);
    }
    forall i | 0 <= i < |q'.jobs| ensures q'.jobs[i].owner != Some(k) {
      if i != h && q'.jobs[i] == q.jobs[i] {
        assert q.jobs[i].id != q.jobs[h].id;
      }
    }
  }

  // ------------------------------------------------------------------------------------------
  // Terminal rows
  // ------------------------------------------------------------------------------------------

  /** Either the row is gone for good or it is still exactly `j`. */
  ghost predicate OnlyAs(q: Queue, j: Job) {
    j.id < q.nextId && forall r :: r in q.jobs && r.id == j.id ==> r == j
  }

  lemma NextKeepsTerminal(c: Config, q: Queue, e: Event, j: Job)
    requires Inv(c, q) && OnlyAs(q, j) && !Active(j)
    ensures OnlyAs(Next(c, q, e), j)
  {
    var q' := Next(c, q, e);
    if e.Purging? {
      forall r | r in q'.jobs ensures r in q.jobs {
        PurgeExact(q, e.before, r);
      }
    } else {
      forall i | 0 <= i < |q'.jobs| && q'.jobs[i].id == j.id ensures q'.jobs[i] == j {
        assert i < |q.jobs| ==> q.jobs[i] in q.jobs;
      }
    }
  }

  /** A completed or failed row never changes again in any column, until it is purged. */
  lemma {:induction false} TerminalRowsStay(c: Config, q: Queue, events: seq<Event>, j: Job)
    requires Inv(c, q) && OnlyAs(q, j) && !Active(j)
    ensures OnlyAs(Run(c, q, events), j)
    decreases |events|
  {
    if events != [] {
      NextKeeps(c, q, events[0]);
      NextKeepsTerminal(c, q, events[0], j);
      TerminalRowsStay(c, Next(c, q, events[0]), events[1..], j);
    }
  }

  lemma RowsAreOnly(c: Config, q: Queue, j: Job)
    requires Inv(c, q) && j in q.jobs
    ensures OnlyAs(q, j)
  {
  }

  // ------------------------------------------------------------------------------------------
  // Termination
  // ------------------------------------------------------------------------------------------

  ghost function Row(q: Queue, id: JobId): (r: Option<Job>)
    ensures r.Some? ==> r.value in q.jobs && r.value.id == id
    ensures r.None? ==> forall j :: j in q.jobs ==> j.id != id
  {
    var i := First(q.jobs, (j: Job) => j.id == id);
    if i < |q.jobs| then Some(q.jobs[i]) else None
  }

  /** Where an active row stands: its state and attempts. */
  ghost function Stage(q: Queue, id: JobId): Option<(JobState, nat)> {
    var r := Row(q, id);
    if r.Some? && Active(r.value) then Some((r.value.state, r.value.attempts)) else None
  }

  ghost function RemainingOf(c: Config, j: Job, limit: nat): int {
    if Active(j) then 2 * (c.maxAttempts + limit - j.attempts) + if j.state.Running? then 1 else 0 else 0
  }

  /** With at most `limit` interruptions, no more stage changes than this remain. */
  ghost function Remaining(c: Config, q: Queue, id: JobId, limit: nat): int {
    if Row(q, id).Some? then RemainingOf(c, Row(q, id).value, limit) else 0
  }

  ghost predicate Within(q: Queue, id: JobId, limit: nat) {
    Row(q, id).Some? ==> Row(q, id).value.interruptions <= limit
  }

  ghost predicate AlwaysWithin(c: Config, q: Queue, events: seq<Event>, id: JobId, limit: nat)
    decreases |events|
  {
    Within(q, id, limit) && (events != [] ==> AlwaysWithin(c, Next(c, q, events[0]), events[1..], id, limit))
  }

  ghost function StageChanges(c: Config, q: Queue, events: seq<Event>, id: JobId): nat
    decreases |events|
  {
    if events == [] then 0
    else
      var q' := Next(c, q, events[0]);
      (if Stage(q, id) == Stage(q', id) then 0 else 1) + StageChanges(c, q', events[1..], id)
  }

  lemma RowAt(c: Config, q: Queue, i: nat)
    requires Inv(c, q) && i < |q.jobs|
    ensures Row(q, q.jobs[i].id) == Some(q.jobs[i])
  {
  }

  /** Every change of stage uses up one of the remaining ones. */
  lemma ChangesUseRemaining(c: Config, q: Queue, e: Event, id: JobId, limit: nat)
    requires Inv(c, q) && id < q.nextId && Within(Next(c, q, e), id, limit)
    ensures var q' := Next(c, q, e);
            if Stage(q, id) == Stage(q', id) then Remaining(c, q', id, limit) == Remaining(c, q, id, limit)
            else Remaining(c, q', id, limit) < Remaining(c, q, id, limit)
  {
    NextKeeps(c, q, e);
    if e.Purging? {
      PurgeRow(c, q, e.before, id);
    } else if Row(q, id).Some? {
      var i :| 0 <= i < |q.jobs| && q.jobs[i] == Row(q, id).value;
      RowAt(c, q, i);
      RowMoves(c, q, e, i);
      RowAt(c, Next(c, q, e), i);
      MoveUsesRemaining(c, q.issued, q.jobs[i], Next(c, q, e).jobs[i], limit);
    } else {
      NoNewRow(c, q, e, id);
    }
  }

  lemma NoNewRow(c: Config, q: Queue, e: Event, id: JobId)
    requires Inv(c, q) && id < q.nextId && Row(q, id).None? && !e.Purging?
    ensures Row(Next(c, q, e), id).None?
  {
    var q' := Next(c, q, e);
    forall i | 0 <= i < |q'.jobs| ensures q'.jobs[i].id != id {
      if i < |q.jobs| {
        assert q.jobs[i] in q.jobs;
      }
    }
  }

  /** How one row moves in one statement: it stays, or it is taken, requeued or ended. */
  ghost predicate Moves(j: Job, j': Job) {
    && j'.id == j.id && j'.interruptions >= j.interruptions
    && (|| (j'.state == j.state && j'.attempts == j.attempts)
        || (Active(j) && !Active(j'))
        || (Active(j) && j'.state.Running? && j'.attempts == j.attempts + 1)
        || (j.state.Running? && j'.state.Queued? && j'.attempts == j.attempts))
  }

  lemma RowMoves(c: Config, q: Queue, e: Event, i: nat)
    requires Inv(c, q) && i < |q.jobs| && !e.Purging?
    ensures i < |Next(c, q, e).jobs| && Moves(q.jobs[i], Next(c, q, e).jobs[i])
  {
  }

  lemma {:induction false} MoveUsesRemaining(c: Config, issued: seq<Ticket>, j: Job, j': Job, limit: nat)
    requires JobOk(c, issued, j) && Moves(j, j') && j'.interruptions <= limit
    ensures if Active(j) == Active(j') && (Active(j) ==> j.state == j'.state && j.attempts == j'.attempts)
            then RemainingOf(c, j', limit) == RemainingOf(c, j, limit)
            else RemainingOf(c, j', limit) < RemainingOf(c, j, limit)
  {
  }

  lemma PurgeRow(c: Config, q: Queue, before: int, id: JobId)
    requires Inv(c, q)
    ensures Stage(Purge(q, before), id) == Stage(q, id)
    ensures Stage(q, id).Some? ==> Row(Purge(q, before), id) == Row(q, id)
  {
    var r, r' := Row(q, id), Row(Purge(q, before), id);
    PurgeKeeps(c, q, before);
    if r'.Some? {
      PurgeExact(q, before, r'.value);
      RowsAreOnly(c, q, r'.value);
    } else if r.Some? {
      PurgeExact(q, before, r.value);
    }
  }

  /**
   A job that suffers at most `limit` interruptions changes stage at most 2 * (max_attempts + limit)
   times over any run, whatever the workers and handlers do.
   */
  lemma {:induction false} BoundedChanges(c: Config, q: Queue, events: seq<Event>, id: JobId, limit: nat)
    requires Inv(c, q) && id < q.nextId && AlwaysWithin(c, q, events, id, limit)
    ensures StageChanges(c, q, events, id) + Remaining(c, Run(c, q, events), id, limit) <= Remaining(c, q, id, limit)
    ensures 0 <= Remaining(c, Run(c, q, events), id, limit) <= Remaining(c, q, id, limit) <= 2 * (c.maxAttempts + limit)
    decreases |events|
  {
    RemainingBounds(c, q, id, limit);
    if events != [] {
      var q' := Next(c, q, events[0]);
      NextKeeps(c, q, events[0]);
      ChangesUseRemaining(c, q, events[0], id, limit);
      BoundedChanges(c, q', events[1..], id, limit);
    }
  }

  lemma RemainingBounds(c: Config, q: Queue, id: JobId, limit: nat)
    requires Inv(c, q) && Within(q, id, limit)
    ensures 0 <= Remaining(c, q, id, limit) <= 2 * (c.maxAttempts + limit)
    ensures Stage(q, id).Some? ==> Remaining(c, q, id, limit) > 0
  {
  }

  /** Claiming a row and the end of a handler that still holds its row are changes of stage. */
  lemma WorkChangesStage(c: Config, q: Queue, e: Event, i: nat)
    requires Inv(c, q) && i < |q.jobs|
    requires match e
             case Claiming(now) => OldestDue(q, i, now)
             case Completing(k, _) => i == Held(q, k)
             case Raising(k, _, _) => i == Held(q, k)
             case _ => false
    ensures Stage(Next(c, q, e), q.jobs[i].id) != Stage(q, q.jobs[i].id)
    ensures e.Completing? ==> Stage(Next(c, q, e), q.jobs[i].id).None?
    ensures e.Raising? && q.jobs[i].attempts >= c.maxAttempts ==> Stage(Next(c, q, e), q.jobs[i].id).None?
  {
    NextKeeps(c, q, e);
    if e.Claiming? {
      OldestIsFirst(q, i, e.now);
    }
    RowAt(c, q, i);
    RowAt(c, Next(c, q, e), i);
  }

  // ------------------------------------------------------------------------------------------
  // Resubmission
  // ------------------------------------------------------------------------------------------

  ghost predicate HasActive(q: Queue, kind: Kind, objectId: string) {
    exists j :: j in q.jobs && Active(j) && Targets(j, kind, objectId)
  }

  function SubmitAll(q: Queue, kind: Kind, objects: seq<string>, now: int): Queue
    decreases |objects|
  {
    if objects == [] then q else SubmitAll(Submit(q, kind, objects[0], now), kind, objects[1..], now)
  }

  lemma SubmitGives(q: Queue, kind: Kind, objectId: string, now: int)
    ensures HasActive(Submit(q, kind, objectId, now), kind, objectId)
    ensures forall k, o :: HasActive(q, k, o) ==> HasActive(Submit(q, kind, objectId, now), k, o)
  {
    var i := First(q.jobs, j => Active(j) && Targets(j, kind, objectId));
    var q' := Submit(q, kind, objectId, now);
    if i < |q.jobs| {
      assert q.jobs[i] in q'.jobs;
    } else {
      assert q'.jobs[|q.jobs|] in q'.jobs;
    }
  }

  lemma {:induction false} SubmitAllGives(c: Config, q: Queue, kind: Kind, objects: seq<string>, now: int)
    requires Inv(c, q)
    ensures Inv(c, SubmitAll(q, kind, objects, now))
    ensures forall o :: o in objects ==> HasActive(SubmitAll(q, kind, objects, now), kind, o)
    ensures forall k, o :: HasActive(q, k, o) ==> HasActive(SubmitAll(q, kind, objects, now), k, o)
    decreases |objects|
  {
    if objects != [] {
      SubmitKeeps(c, q, kind, objects[0], now);
      SubmitGives(q, kind, objects[0], now);
      SubmitAllGives(c, Submit(q, kind, objects[0], now), kind, objects[1..], now);
    }
  }

  lemma OthersDiffer(c: Config, q: Queue, i: nat, k: nat)
    requires Inv(c, q) && i < |q.jobs| && k < |q.jobs| && i != k && Active(q.jobs[i]) && Active(q.jobs[k])
    ensures !Targets(q.jobs[k], q.jobs[i].kind, q.jobs[i].objectId)
  {
  }

  /** The event ends the work on the object's active row: the holder of the row completes or fails it. */
  ghost predicate Finishes(c: Config, q: Queue, e: Event, kind: Kind, objectId: string) {
    && (e.Completing? || (e.Raising? && e.k < |q.issued| && q.issued[e.k].attempts >= c.maxAttempts))
    && Held(q, e.k) < |q.jobs| && Targets(q.jobs[Held(q, e.k)], kind, objectId)
  }

  /** The same, by a claim that is not among the first `since`. */
  ghost predicate FinishedSince(c: Config, q: Queue, events: seq<Event>, kind: Kind, objectId: string, since: Owner)
    decreases |events|
  {
    events != [] &&
    (|| (Finishes(c, q, events[0], kind, objectId) && events[0].k >= since)
     || FinishedSince(c, Next(c, q, events[0]), events[1..], kind, objectId, since))
  }

  ghost predicate FinishedIn(c: Config, q: Queue, events: seq<Event>, kind: Kind, objectId: string)
    decreases |events|
  {
    events != [] &&
    (Finishes(c, q, events[0], kind, objectId) || FinishedIn(c, Next(c, q, events[0]), events[1..], kind, objectId))
  }

  ghost predicate SubmittedIn(events: seq<Event>, kind: Kind, objectId: string) {
    exists i :: 0 <= i < |events| && events[i].Submitting? && events[i].kind == kind && events[i].objectId == objectId
  }

  lemma {:induction false} SubmittedLater(events: seq<Event>, kind: Kind, objectId: string)
    requires events != []
    ensures SubmittedIn(events[1..], kind, objectId) ==> SubmittedIn(events, kind, objectId)
  {
    var rest := events[1..];
    if SubmittedIn(rest, kind, objectId) {
      var i :| 0 <= i < |rest| && rest[i].Submitting? && rest[i].kind == kind && rest[i].objectId == objectId;
      assert events[i + 1] == rest[i];
    }
  }

  lemma ActiveRow(q: Queue, kind: Kind, objectId: string) returns (i: nat)
    requires HasActive(q, kind, objectId)
    ensures i < |q.jobs| && Active(q.jobs[i]) && Targets(q.jobs[i], kind, objectId)
  {
    var j :| j in q.jobs && Active(j) && Targets(j, kind, objectId);
    i :| 0 <= i < |q.jobs| && q.jobs[i] == j;
  }

  lemma ActiveAt(q: Queue, i: nat, kind: Kind, objectId: string)
    requires i < |q.jobs| && Active(q.jobs[i]) && Targets(q.jobs[i], kind, objectId)
    ensures HasActive(q, kind, objectId)
  {
    assert q.jobs[i] in q.jobs;
  }

  /** A statement that ends no work on the object's row leaves the object its active row. */
  lemma StaysActive(c: Config, q: Queue, e: Event, kind: Kind, objectId: string)
    requires Inv(c, q) && HasActive(q, kind, objectId) && !Finishes(c, q, e, kind, objectId)
    ensures HasActive(Next(c, q, e), kind, objectId)
  {
    var i := ActiveRow(q, kind, objectId);
    if e.Purging? {
      assert q.jobs[i] in q.jobs;
      PurgeExact(q, e.before, q.jobs[i]);
    } else {
      ActiveAt(Next(c, q, e), i, kind, objectId);
    }
  }

  /** Ending the work on the object's row leaves it none. */
  lemma FinishedHasNone(c: Config, q: Queue, e: Event, kind: Kind, objectId: string)
    requires Inv(c, q) && Finishes(c, q, e, kind, objectId)
    ensures HasActive(q, kind, objectId) && !HasActive(Next(c, q, e), kind, objectId)
  {
    var h, r := Held(q, e.k), Next(c, q, e);
    ActiveAt(q, h, kind, objectId);
    forall m | 0 <= m < |r.jobs| && Active(r.jobs[m]) ensures !Targets(r.jobs[m], kind, objectId) {
      if m != h {
        OthersDiffer(c, q, h, m);
      }
    }
  }

  /** Only a submission of the object gives it an active row. */
  lemma StaysInactive(c: Config, q: Queue, e: Event, kind: Kind, objectId: string)
    requires Inv(c, q) && !HasActive(q, kind, objectId)
    requires !(e.Submitting? && e.kind == kind && e.objectId == objectId)
    ensures !HasActive(Next(c, q, e), kind, objectId)
  {
    if HasActive(Next(c, q, e), kind, objectId) {
      var i := ActiveRow(Next(c, q, e), kind, objectId);
      var j := Next(c, q, e).jobs[i];
      if e.Purging? {
        PurgeExact(q, e.before, j);
      } else if i < |q.jobs| {
        ActiveAt(q, i, kind, objectId);
      }
    }
  }

  /**
   Over every interleaving of submissions, claims, ends of work, renewals, purges and restarts: an object with
   an active row and no further submission has one at the end exactly when no worker ended its row in between.
   */
  lemma {:induction false} ActiveUntilFinished(c: Config, q: Queue, events: seq<Event>, kind: Kind, objectId: string)
    requires Inv(c, q)
    ensures HasActive(q, kind, objectId) && !FinishedIn(c, q, events, kind, objectId) ==>
              HasActive(Run(c, q, events), kind, objectId)
    ensures !SubmittedIn(events, kind, objectId) ==>
              (HasActive(Run(c, q, events), kind, objectId) <==>
               HasActive(q, kind, objectId) && !FinishedIn(c, q, events, kind, objectId))
    decreases |events|
  {
    if events != [] {
      var e, rest := events[0], events[1..];
      NextKeeps(c, q, e);
      ActiveUntilFinished(c, Next(c, q, e), rest, kind, objectId);
      SubmittedLater(events, kind, objectId);
      if Finishes(c, q, e, kind, objectId) {
        FinishedHasNone(c, q, e, kind, objectId);
      } else if HasActive(q, kind, objectId) {
        StaysActive(c, q, e, kind, objectId);
      } else if !SubmittedIn(events, kind, objectId) {
        StaysInactive(c, q, e, kind, objectId);
        NoneToFinish(c, Next(c, q, e), rest, kind, objectId);
      }
    }
  }

  /** Without an active row and without a submission there is no work on the object to end. */
  lemma {:induction false} NoneToFinish(c: Config, q: Queue, events: seq<Event>, kind: Kind, objectId: string)
    requires Inv(c, q) && !HasActive(q, kind, objectId) && !SubmittedIn(events, kind, objectId)
    ensures !FinishedIn(c, q, events, kind, objectId)
    decreases |events|
  {
    if events != [] {
      var e, rest := events[0], events[1..];
      NextKeeps(c, q, e);
      StaysInactive(c, q, e, kind, objectId);
      SubmittedLater(events, kind, objectId);
      if Finishes(c, q, e, kind, objectId) {
        FinishedHasNone(c, q, e, kind, objectId);
      }
      NoneToFinish(c, Next(c, q, e), rest, kind, objectId);
    }
  }

  /**
   Recovery while the workers already run. After a restart, claims, ends of work and further submissions
   interleave with the resubmission of the pending records. The i-th event submits an object: from then on
   the object has exactly one active row, or none, and it has none only when a worker has ended the row since.
   That worker claimed after the restart.
   */
  lemma {:induction false} RecoveryInterleaved(c: Config, q: Queue, events: seq<Event>, i: nat, kind: Kind,
                                               objectId: string, now: int)
    requires Inv(c, q) && i < |events|
    requires events[i].Submitting? && events[i].kind == kind && events[i].objectId == objectId
    ensures var q0 := Restart(q, now);
            var q1, q' := Run(c, q0, events[..i + 1]), Run(c, q0, events);
            var finished := FinishedSince(c, q1, events[i + 1..], kind, objectId, |q.issued|);
            && OneActive(q'.jobs)
            && (!HasActive(q', kind, objectId) ==> finished)
            && (!SubmittedIn(events[i + 1..], kind, objectId) ==> (!HasActive(q', kind, objectId) <==> finished))
  {
    var q0 := Restart(q, now);
    var before, rest := events[..i], events[i + 1..];
    RestartKeeps(c, q, now);
    RunKeeps(c, q0, events);
    RunKeeps(c, q0, before);
    RunKeeps(c, q0, events[..i + 1]);
    assert events[..i + 1] == before + [events[i]];
    assert events == events[..i + 1] + rest;
    RunAppend(c, q0, before, [events[i]]);
    RunAppend(c, q0, events[..i + 1], rest);
    var qb := Run(c, q0, before);
    assert Run(c, qb, [events[i]]) == Run(c, Next(c, qb, events[i]), [events[i]][1..]);
    SubmitGives(qb, kind, objectId, events[i].now);
    var q1 := Run(c, q0, events[..i + 1]);
    ActiveUntilFinished(c, q1, rest, kind, objectId);
    RestartLosesAll(c, q, now);
    forall k: Owner | k < |q.issued| ensures Lost(q1, k) {
      RunKeepsLost(c, q0, events[..i + 1], k);
    }
    FinisherIsNew(c, q1, rest, kind, objectId, |q.issued|);
  }

  lemma {:induction false} RunKeepsLost(c: Config, q: Queue, events: seq<Event>, k: Owner)
    requires Inv(c, q) && Lost(q, k)
    ensures Lost(Run(c, q, events), k)
    decreases |events|
  {
    if events != [] {
      NextKeeps(c, q, events[0]);
      NextKeepsLost(c, q, events[0], k);
      RunKeepsLost(c, Next(c, q, events[0]), events[1..], k);
    }
  }

  lemma FinisherHolds(c: Config, q: Queue, e: Event, kind: Kind, objectId: string)
    requires Finishes(c, q, e, kind, objectId)
    ensures !Lost(q, e.k)
  {
    assert q.jobs[Held(q, e.k)] in q.jobs;
  }

  /** Who holds no lease ends no work. */
  lemma {:induction false} FinisherIsNew(c: Config, q: Queue, events: seq<Event>, kind: Kind, objectId: string,
                                         since: Owner)
    requires Inv(c, q) && forall k: Owner :: k < since ==> Lost(q, k)
    ensures FinishedIn(c, q, events, kind, objectId) <==> FinishedSince(c, q, events, kind, objectId, since)
    decreases |events|
  {
    if events != [] {
      var e := events[0];
      NextKeeps(c, q, e);
      forall k: Owner | k < since ensures Lost(Next(c, q, e), k) {
        NextKeepsLost(c, q, e, k);
      }
      if Finishes(c, q, e, kind, objectId) {
        FinisherHolds(c, q, e, kind, objectId);
      }
      FinisherIsNew(c, Next(c, q, e), events[1..], kind, objectId, since);
    }
  }

  lemma RestartLosesAll(c: Config, q: Queue, now: int)
    requires Inv(c, q)
    ensures forall k: Owner :: k < |q.issued| ==> Lost(Restart(q, now), k)
  {
    forall i | 0 <= i < |q.jobs| ensures Restarted(q.jobs[i], now).owner.None? {
      assert JobOk(c, q.issued, q.jobs[i]);
    }
  }

  lemma {:induction false} RunAppend(c: Config, q: Queue, first: seq<Event>, second: seq<Event>)
    ensures Run(c, q, first + second) == Run(c, Run(c, q, first), second)
    decreases |first|
  {
    if first == [] {
      assert first + second == second;
    } else {
      assert (first + second)[1..] == first[1..] + second;
      RunAppend(c, Next(c, q, first[0]), first[1..], second);
    }
  }

  /**
   A rescan submits while the object's old row may still be running. The submission is then ignored,
   and when that worker completes its row no active job is left. It is left exactly when the object's
   active row, if there is one, is not the one the worker holds.
   */
  lemma MissedResubmission(c: Config, q: Queue, kind: Kind, objectId: string, k: Owner, now: int, later: int)
    requires Inv(c, q) && k < |q.issued|
    ensures HasActive(Complete(Submit(q, kind, objectId, now), k, later), kind, objectId)
       <==> !(Held(q, k) < |q.jobs| && Targets(q.jobs[Held(q, k)], kind, objectId))
  {
    var s := Submit(q, kind, objectId, now);
    SubmitKeeps(c, q, kind, objectId, now);
    SubmitGives(q, kind, objectId, now);
    HeldAfterSubmit(c, q, kind, objectId, now, k);
    if Finishes(c, s, Completing(k, later), kind, objectId) {
      FinishedHasNone(c, s, Completing(k, later), kind, objectId);
    } else {
      StaysActive(c, s, Completing(k, later), kind, objectId);
    }
  }

  /** A submission, its claim, a second submission while the worker is at it, and the end of its work. */
  function SubmittedTwice(kind: Kind, objectId: string, now: int): seq<Event> {
    [Submitting(kind, objectId, now)] + [Claiming(now)] + [Submitting(kind, objectId, now)] + [Completing(0, now)]
  }

  lemma RunOne(c: Config, q: Queue, e: Event)
    ensures Run(c, q, [e]) == Next(c, q, e)
  {
    assert Run(c, q, [e]) == Run(c, Next(c, q, e), [e][1..]);
  }

  /** The second submission is missed: from an empty queue to one without an active row, two submissions on. */
  lemma MissedIsReachable(c: Config, kind: Kind, objectId: string, now: int)
    requires c.maxAttempts >= 1
    ensures !HasActive(Run(c, EMPTY, SubmittedTwice(kind, objectId, now)), kind, objectId)
  {
    var q1 := Submit(EMPTY, kind, objectId, now);
    var q2 := Claim(c, q1, now);
    var first, second := [Submitting(kind, objectId, now)] + [Claiming(now)], [Submitting(kind, objectId, now)];
    RunOne(c, EMPTY, Submitting(kind, objectId, now));
    RunOne(c, q1, Claiming(now));
    RunOne(c, q2, Submitting(kind, objectId, now));
    RunOne(c, Submit(q2, kind, objectId, now), Completing(0, now));
    RunAppend(c, EMPTY, [Submitting(kind, objectId, now)], [Claiming(now)]);
    RunAppend(c, EMPTY, first, second);
    RunAppend(c, EMPTY, first + second, [Completing(0, now)]);
    MissedTwice(c, kind, objectId, now);
  }

  lemma MissedTwice(c: Config, kind: Kind, objectId: string, now: int)
    requires c.maxAttempts >= 1
    ensures var q := Claim(c, Submit(EMPTY, kind, objectId, now), now);
            !HasActive(Complete(Submit(q, kind, objectId, now), 0, now), kind, objectId)
  {
    var q := Submit(EMPTY, kind, objectId, now);
    EmptyOk(c);
    SubmitKeeps(c, EMPTY, kind, objectId, now);
    ClaimKeeps(c, q, now);
    FirstClaimed(c, kind, objectId, now);
    MissedResubmission(c, Claim(c, q, now), kind, objectId, 0, now, now);
  }

  lemma FirstClaimed(c: Config, kind: Kind, objectId: string, now: int)
    ensures var q := Claim(c, Submit(EMPTY, kind, objectId, now), now);
            |q.issued| == 1 && Held(q, 0) == 0 && |q.jobs| == 1 && Targets(q.jobs[0], kind, objectId)
  {
    var q := Claim(c, Submit(EMPTY, kind, objectId, now), now);
    assert q.jobs == [Taken(c, Fresh(1, kind, objectId, now), 0, now)];
    assert HeldBy(q.jobs[0], q.issued[0].id, 0);
  }

  lemma HeldAfterSubmit(c: Config, q: Queue, kind: Kind, objectId: string, now: int, k: Owner)
    requires Inv(c, q) && k < |q.issued|
    ensures var s := Submit(q, kind, objectId, now);
            if Held(q, k) < |q.jobs| then Held(s, k) == Held(q, k) && s.jobs[Held(q, k)] == q.jobs[Held(q, k)]
            else Held(s, k) == |s.jobs|
  {
    var s := Submit(q, kind, objectId, now);
    var h, h' := Held(q, k), Held(s, k);
    if h < |q.jobs| {
      assert HeldBy(s.jobs[h], s.issued[k].id, k);
    } else {
      forall i | 0 <= i < |s.jobs| ensures !HeldBy(s.jobs[i], q.issued[k].id, k) {
        if i < |q.jobs| {
          assert s.jobs[i] == q.jobs[i];
        }
      }
    }
  }
}
