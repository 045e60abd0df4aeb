/** The durable queue as the service executes it; each method is one statement of `JobQueue`, or a chain of them. */
module QueueService {
  import opened Basics
  import opened JobQueue
  import JobLeases

  class SQLiteJobQueue {
    const config: Config
    const allowedKinds: set<Kind>
    var jobs: seq<Job>
    var nextId: JobId
    var started: bool
    var issued: seq<Ticket>
    ghost var dead: seq<JobId>

    constructor (leaseSeconds: int, maxAttempts: int, allowedKinds: set<Kind>)
      ensures config.leaseSeconds == Max(30, leaseSeconds) && config.maxAttempts == Max(1, maxAttempts)
      ensures this.allowedKinds == allowedKinds && Now() == EMPTY && !started && Valid()
    {
      config := Config(Max(30, leaseSeconds), Max(1, maxAttempts));
      this.allowedKinds := allowedKinds;
      jobs, nextId, started, issued, dead := [], 1, false, [], [];
    }

    ghost function Now(): Queue
      reads this
    {
      Queue(jobs, nextId, issued, dead)
    }

    ghost predicate Valid()
      reads this
    {
      Inv(config, Now())
    }

    /** Leases of the previous process are given up before the workers start. */
    method Start(handlers: set<Kind>, now: int) returns (ok: bool)
      requires Valid()
      modifies this`jobs, this`started
      ensures Valid() && ok == (old(started) || handlers == allowedKinds) && started == ok
      ensures Now() == if !old(started) && ok then Restart(old(Now()), now) else old(Now())
      ensures !old(started) && ok ==>
                && |jobs| == |old(jobs)|
                && forall i :: 0 <= i < |jobs| ==> jobs[i] == JobLeases.AfterRestart(old(jobs)[i], now)
    {
      RestartKeeps(config, Now(), now);
      JobLeases.RestartIs(Now(), now);
      if started { return true; }
      if handlers != allowedKinds { return false; }
      started, ok := true, true;
      var before, i := jobs, 0;
      while i < |jobs|
        invariant started && i <= |jobs| == |before|
        invariant forall k :: 0 <= k < |jobs| ==> jobs[k] == if k < i then Restarted(before[k], now) else before[k]
      {
        if jobs[i].state.Running? {
          jobs := jobs[i := jobs[i].(state := Queued, availableAt := now, leaseUntil := None, owner := None,
                                     updatedAt := now, lastError := "worker restart",
                                     interruptions := jobs[i].interruptions + 1)];
        }
        i := i + 1;
      }
      assert jobs == Restart(old(Now()), now).jobs;
    }

    method Submit(kind: Kind, objectId: string, now: int) returns (ok: bool)
      requires Valid()
      modifies this`jobs, this`nextId
      ensures Valid() && ok == (kind in allowedKinds)
      ensures Now() == if ok then JobQueue.Submit(old(Now()), kind, objectId, now) else old(Now())
      ensures ok ==> JobLeases.Submitted(old(Now()), kind, objectId, now, Now())
    {
      SubmitKeeps(config, Now(), kind, objectId, now);
      JobLeases.SubmitIs(Now(), kind, objectId, now);
      ok := kind in allowedKinds;
      if !ok { return; }
      var i := 0;
      while i < |jobs| && !(Active(jobs[i]) && Targets(jobs[i], kind, objectId))
        invariant i <= |jobs|
        invariant forall k :: 0 <= k < i ==> !(Active(jobs[k]) && Targets(jobs[k], kind, objectId))
      {
        i := i + 1;
      }
      if i == |jobs| {
        jobs := jobs + [Job(nextId, kind, objectId, Queued, 0, now, None, None, now, "", 0)];
        nextId := nextId + 1;
      }
    }

    /** SELECT ... ORDER BY id LIMIT 1. */
    method OldestEligible(now: int) returns (i: nat)
      ensures i == First(jobs, j => Eligible(j, now))
      ensures if i < |jobs| then OldestDue(Now(), i, now) else forall k :: 0 <= k < |jobs| ==> !Due(jobs[k], now)
    {
      i := 0;
      while i < |jobs| && !Eligible(jobs[i], now)
        invariant i <= |jobs|
        invariant forall k :: 0 <= k < i ==> !Eligible(jobs[k], now)
      {
        i := i + 1;
      }
    }

    /**
     A poll. It takes the first row that is queued and available, or running with a lease that has run out, for
     `leaseSeconds`, and nothing when there is none.
     */
    method Claim(now: int) returns (lease: Option<Owner>)
      requires Valid()
      modifies this`jobs, this`issued
      ensures Valid() && Now() == JobQueue.Claim(config, old(Now()), now)
      ensures lease.None? ==> Now() == old(Now()) && forall k :: 0 <= k < |old(jobs)| ==> !Due(old(jobs)[k], now)
      ensures lease.Some? ==>
                && lease.value == |old(issued)|
                && exists i :: OldestDue(old(Now()), i, now) && JobLeases.Claimed(config, old(Now()), now, i, Now())
    {
      var i := OldestEligible(now);
      if i == |jobs| { return None; }
      lease := TakeRow(i, now);
    }

    method TakeRow(i: nat, now: int) returns (lease: Option<Owner>)
      requires Valid() && OldestDue(Now(), i, now)
      modifies this`jobs, this`issued
      ensures Valid() && Now() == JobQueue.Claim(config, old(Now()), now)
      ensures lease == Some(|old(issued)|) && JobLeases.Claimed(config, old(Now()), now, i, Now())
    {
      ClaimKeeps(config, Now(), now);
      OldestIsFirst(Now(), i, now);
      JobLeases.ClaimIs(config, Now(), now, i);
      var job := jobs[i];
      lease := Some(|issued|);
      jobs := jobs[i := job.(state := Running, attempts := job.attempts + 1,
                             leaseUntil := Some(now + config.leaseSeconds), owner := lease, updatedAt := now,
                             interruptions := if job.state.Running? then job.interruptions + 1 else job.interruptions)];
      issued := issued + [Ticket(job.id, job.kind, job.objectId, job.attempts + 1)];
    }

    /** The row the lease still owns: WHERE id = ? AND state = 'running' AND lease_owner = ?. */
    method Owned(lease: Owner) returns (i: nat)
      requires lease < |issued|
      ensures i == Held(Now(), lease)
    {
      i := 0;
      while i < |jobs| && !HeldBy(jobs[i], issued[lease].id, lease)
        invariant i <= |jobs|
        invariant forall k :: 0 <= k < i ==> !HeldBy(jobs[k], issued[lease].id, lease)
      {
        i := i + 1;
      }
    }

    /** What the statements of the lease's holder do, for whichever row it holds. */
    lemma HeldRow(lease: Owner, error: string, now: int)
      requires Valid() && lease < |issued|
      ensures Held(Now(), lease) < |jobs| <==> exists i: nat :: JobLeases.Holds(Now(), lease, i)
      ensures forall i: nat :: JobLeases.Holds(Now(), lease, i) ==>
                && i == Held(Now(), lease) && issued[lease].attempts == jobs[i].attempts
                && JobLeases.Finished(Now(), i, now, Complete(Now(), lease, now))
                && JobLeases.Raised(config, Now(), i, error, now, RetryOrFail(config, Now(), lease, error, now))
                && JobLeases.Renewed(config, Now(), i, now, Renew(config, Now(), lease, now))
    {
      if Held(Now(), lease) < |jobs| {
        assert JobLeases.Holds(Now(), lease, Held(Now(), lease));
      }
      forall i: nat | JobLeases.Holds(Now(), lease, i)
        ensures && i == Held(Now(), lease) && issued[lease].attempts == jobs[i].attempts
                && JobLeases.Finished(Now(), i, now, Complete(Now(), lease, now))
                && JobLeases.Raised(config, Now(), i, error, now, RetryOrFail(config, Now(), lease, error, now))
                && JobLeases.Renewed(config, Now(), i, now, Renew(config, Now(), lease, now))
      {
        JobLeases.HolderIs(config, Now(), lease, i);
        JobLeases.FencedIs(config, Now(), lease, i, error, now);
      }
    }

    method CompleteJob(lease: Owner, now: int)
      requires Valid() && lease < |issued|
      modifies this`jobs
      ensures Valid() && Now() == Complete(old(Now()), lease, now)
      ensures (forall i: nat :: !JobLeases.Holds(old(Now()), lease, i)) ==> Now() == old(Now())
      ensures forall i: nat :: JobLeases.Holds(old(Now()), lease, i) ==> JobLeases.Finished(old(Now()), i, now, Now())
    {
      FencedKeeps(config, Now(), Completing(lease, now));
      HeldRow(lease, "", now);
      var i := Owned(lease);
      if i < |jobs| {
        jobs := jobs[i := jobs[i].(state := Completed, leaseUntil := None, owner := None, updatedAt := now)];
      }
    }

    method RenewLease(lease: Owner, now: int) returns (held: bool)
      requires Valid() && lease < |issued|
      modifies this`jobs
      ensures Valid() && Now() == Renew(config, old(Now()), lease, now)
      ensures held <==> exists i: nat :: JobLeases.Holds(old(Now()), lease, i)
      ensures !held ==> Now() == old(Now())
      ensures forall i: nat :: JobLeases.Holds(old(Now()), lease, i) ==>
                JobLeases.Renewed(config, old(Now()), i, now, Now())
    {
      FencedKeeps(config, Now(), Renewing(lease, now));
      HeldRow(lease, "", now);
      var i := Owned(lease);
      held := i < |jobs|;
      if held {
        jobs := jobs[i := jobs[i].(leaseUntil := Some(now + config.leaseSeconds), updatedAt := now)];
      }
    }

    /** Answers whether the caller must now run the dead-letter handler. */
    method RetryOrFailJob(lease: Owner, error: string, now: int) returns (deadLetter: bool)
      requires Valid() && lease < |issued|
      modifies this`jobs, this`dead
      ensures Valid() && Now() == RetryOrFail(config, old(Now()), lease, error, now)
      ensures deadLetter <==> dead == old(dead) + [issued[lease].id]
      ensures (forall i: nat :: !JobLeases.Holds(old(Now()), lease, i)) ==> Now() == old(Now()) && !deadLetter
      ensures forall i: nat :: JobLeases.Holds(old(Now()), lease, i) ==>
                && JobLeases.Raised(config, old(Now()), i, error, now, Now())
                && (deadLetter <==> old(jobs)[i].attempts >= config.maxAttempts)
    {
      FencedKeeps(config, Now(), Raising(lease, error, now));
      HeldRow(lease, error, now);
      var i := Owned(lease);
      deadLetter := i < |jobs| && issued[lease].attempts >= config.maxAttempts;
      if i == |jobs| { return; }
      if issued[lease].attempts < config.maxAttempts {
        var delay := Min(60, Pow2(issued[lease].attempts));
        jobs := jobs[i := jobs[i].(state := Queued, availableAt := now + delay, leaseUntil := None, owner := None,
                                   updatedAt := now, lastError := error)];
      } else {
        dead := dead + [jobs[i].id];
        jobs := jobs[i := jobs[i].(state := Failed, leaseUntil := None, owner := None, updatedAt := now,
                                   lastError := error)];
      }
    }

    /**
     The end of a worker's round, at any later state of the queue: `outcome` is what the handler raised. The
     lease may have been lost meanwhile, and then nothing changes; in no case is it held afterwards.
     */
    method FinishWork(lease: Owner, outcome: Option<string>, now: int) returns (deadLetter: bool)
      requires Valid() && lease < |issued|
      modifies this`jobs, this`dead
      ensures Valid() && Lost(Now(), lease)
      ensures Now() == Next(config, old(Now()), if outcome.None? then Completing(lease, now)
                                                else Raising(lease, outcome.value, now))
      ensures Held(old(Now()), lease) == |old(jobs)| ==> Now() == old(Now()) && !deadLetter
    {
      FinishingLoses(config, Now(), lease, outcome, now);
      deadLetter := false;
      if outcome.None? {
        CompleteJob(lease, now);
      } else {
        deadLetter := RetryOrFailJob(lease, outcome.value, now);
      }
    }

    method DeleteRow(i: nat, ghost before: int)
      requires i < |jobs| && Purgeable(jobs[i], before) && forall k :: 0 <= k < i ==> !Purgeable(jobs[k], before)
      modifies this`jobs
      ensures jobs == old(jobs)[..i] + old(jobs)[i + 1..] && Purge(Now(), before) == Purge(old(Now()), before)
    {
      PurgeStep(Now(), before, i);
      jobs := jobs[..i] + jobs[i + 1..];
    }

    method PurgeCompleted(before: int) returns (count: nat)
      requires Valid()
      modifies this`jobs
      ensures Valid() && Now() == Purge(old(Now()), before) && count == |old(jobs)| - |jobs|
      ensures forall j :: j in jobs <==>
                j in old(jobs) && !((j.state.Completed? || j.state.Failed?) && j.updatedAt <= before)
    {
      PurgeKeeps(config, Now(), before);
      forall j ensures j in Purge(Now(), before).jobs <==>
                j in jobs && !((j.state.Completed? || j.state.Failed?) && j.updatedAt <= before) {
        PurgeExact(Now(), before, j);
      }
      count := 0;
      var i := 0;
      while i < |jobs|
        invariant i <= |jobs| && count == |old(jobs)| - |jobs|
        invariant Purge(Now(), before) == Purge(old(Now()), before)
        invariant forall k :: 0 <= k < i ==> !Purgeable(jobs[k], before)
        decreases |jobs| - i
      {
        if Purgeable(jobs[i], before) {
          DeleteRow(i, before);
          count := count + 1;
        } else {
          i := i + 1;
        }
      }
    }

    /** Startup resubmits every pending record. */
    method ResubmitPending(kind: Kind, pending: seq<string>, now: int)
      requires Valid() && kind in allowedKinds
      modifies this`jobs, this`nextId
      ensures Valid() && Now() == SubmitAll(old(Now()), kind, pending, now)
      ensures forall o :: o in pending ==> HasActive(Now(), kind, o)
    {
      SubmitAllGives(config, Now(), kind, pending, now);
      var i := 0;
      while i < |pending|
        invariant i <= |pending| && Valid()
        invariant SubmitAll(Now(), kind, pending[i..], now) == SubmitAll(old(Now()), kind, pending, now)
      {
        assert pending[i..][1..] == pending[i + 1..];
        var ok := Submit(kind, pending[i], now);
        i := i + 1;
      }
    }
  }

  lemma PurgeStep(q: Queue, before: int, i: nat)
    requires i < |q.jobs| && Purgeable(q.jobs[i], before)
    requires forall k :: 0 <= k < i ==> !Purgeable(q.jobs[k], before)
    ensures Purge(q, before) == Purge(Without(q, i), before)
  {
    assert First(q.jobs, j => Purgeable(j, before)) == i;
  }

  lemma FinishingLoses(c: Config, q: Queue, k: Owner, outcome: Option<string>, now: int)
    requires Inv(c, q) && k < |q.issued|
    ensures Lost(Next(c, q, if outcome.None? then Completing(k, now) else Raising(k, outcome.value, now)), k)
  {
    var e := if outcome.None? then Completing(k, now) else Raising(k, outcome.value, now);
    if Held(q, k) < |q.jobs| {
      LeaseIsLost(c, q, e, k);
    } else {
      forall i | 0 <= i < |q.jobs| ensures q.jobs[i].owner != Some(k) {
        assert JobOk(c, q.issued, q.jobs[i]);
      }
    }
  }
}
