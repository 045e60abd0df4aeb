/**
 What each statement of the queue does to each row, and what that means over runs: how long a lease keeps other
 workers away, when a lapsed one is taken over, and how long a failed job waits before it is tried again.
 */
module JobLeases {
  import opened Basics
  import opened JobQueue

  /** One row is another one now; everything else is as it was. */
  ghost predicate OnlyRow(q: Queue, q': Queue, i: nat, j: Job)
    requires i < |q.jobs|
  {
    q'.jobs == q.jobs[i := j] && q'.nextId == q.nextId
  }

  /** The wait after an attempt: doubling, and at most a minute. */
  function Wait(attempts: nat): int {
    if attempts >= 6 then 60 else [1, 2, 4, 8, 16, 32][attempts]
  }

  lemma DelayIsWait(attempts: nat)
    ensures Delay(attempts) == Wait(attempts)
  {
    if attempts >= 6 {
      Doubles(attempts - 6);
      assert Pow2(attempts) >= 64;
    } else {
      assert Pow2(1) == 2 && Pow2(2) == 4 && Pow2(3) == 8 && Pow2(4) == 16 && Pow2(5) == 32;
    }
  }

  lemma Doubles(n: nat)
    ensures Pow2(n + 6) >= 64
  {
    if n == 0 {
      assert Pow2(1) == 2 && Pow2(2) == 4 && Pow2(3) == 8 && Pow2(4) == 16 && Pow2(5) == 32;
    } else {
      Doubles(n - 1);
    }
  }

  // ------------------------------------------------------------------------------------------
  // The statements, row by row
  // ------------------------------------------------------------------------------------------

  /** Row i has been taken by a claim. */
  ghost predicate Claimed(c: Config, q: Queue, now: int, i: nat, q': Queue)
    requires i < |q.jobs|
  {
    var j := q.jobs[i];
    && OnlyRow(q, q', i, j.(state := Running, attempts := j.attempts + 1, updatedAt := now,
                            leaseUntil := Some(now + c.leaseSeconds), owner := Some(|q.issued|),
                            interruptions := j.interruptions + if j.state.Running? then 1 else 0))
    && q'.issued == q.issued + [Ticket(j.id, j.kind, j.objectId, j.attempts + 1)] && q'.dead == q.dead
  }

  /**
   A claim takes the first due row: it runs under a new owner with one more attempt and a lease of `leaseSeconds` from
   now, and has been interrupted once more if it was running. Without a due row nothing changes.
   */
  lemma ClaimIs(c: Config, q: Queue, now: int, i: nat)
    requires OldestDue(q, i, now)
    ensures Claimed(c, q, now, i, Claim(c, q, now))
  {
    OldestIsFirst(q, i, now);
  }

  lemma NoClaim(c: Config, q: Queue, now: int)
    requires forall k :: 0 <= k < |q.jobs| ==> !Due(q.jobs[k], now)
    ensures Claim(c, q, now) == q
  {
  }

  /** Row i is running under claim k. */
  ghost predicate Holds(q: Queue, k: Owner, i: nat) {
    i < |q.jobs| && q.jobs[i].state.Running? && q.jobs[i].owner == Some(k)
  }

  lemma HolderIs(c: Config, q: Queue, k: Owner, i: nat)
    requires Inv(c, q) && Holds(q, k, i)
    ensures Held(q, k) == i && k < |q.issued| && q.issued[k].attempts == q.jobs[i].attempts
  {
    assert JobOk(c, q.issued, q.jobs[i]);
    assert HeldBy(q.jobs[i], q.issued[k].id, k);
    assert q.jobs[Held(q, k)].id == q.jobs[i].id;
  }

  lemma NotHeld(c: Config, q: Queue, k: Owner)
    requires forall i :: 0 <= i < |q.jobs| ==> !Holds(q, k, i)
    ensures Held(q, k) == |q.jobs|
  {
    if Held(q, k) < |q.jobs| {
      assert Holds(q, k, Held(q, k));
    }
  }

  function Released(j: Job, now: int): Job {
    j.(leaseUntil := None, owner := None, updatedAt := now)
  }

  ghost predicate Finished(q: Queue, i: nat, now: int, q': Queue)
    requires i < |q.jobs|
  {
    OnlyRow(q, q', i, Released(q.jobs[i], now).(state := Completed)) && q'.issued == q.issued && q'.dead == q.dead
  }

  ghost predicate Renewed(c: Config, q: Queue, i: nat, now: int, q': Queue)
    requires i < |q.jobs|
  {
    && OnlyRow(q, q', i, q.jobs[i].(leaseUntil := Some(now + c.leaseSeconds), updatedAt := now))
    && q'.issued == q.issued && q'.dead == q.dead
  }

  ghost predicate Raised(c: Config, q: Queue, i: nat, error: string, now: int, q': Queue)
    requires i < |q.jobs|
  {
    var j := Released(q.jobs[i], now).(lastError := error);
    && q'.issued == q.issued
    && if j.attempts < c.maxAttempts then
         OnlyRow(q, q', i, j.(state := Queued, availableAt := now + Wait(j.attempts))) && q'.dead == q.dead
       else OnlyRow(q, q', i, j.(state := Failed)) && q'.dead == q.dead + [j.id]
  }

  /**
   The end of a round, and a renewal, by the claim that holds row i. A completed round ends the row; a failed one
   queues it again, for as long as the wait after its attempts takes, or ends it at the limit, which is when its dead
   letter is due; a renewal sets the lease to `leaseSeconds` from now. No other row changes.
   */
  lemma FencedIs(c: Config, q: Queue, k: Owner, i: nat, error: string, now: int)
    requires Inv(c, q) && Holds(q, k, i)
    ensures Finished(q, i, now, Complete(q, k, now))
    ensures Raised(c, q, i, error, now, RetryOrFail(c, q, k, error, now))
    ensures Renewed(c, q, i, now, Renew(c, q, k, now))
  {
    HolderIs(c, q, k, i);
    DelayIsWait(q.jobs[i].attempts);
  }

  /** What a restart makes of a row: a running one is queued at once, any other stays. */
  function AfterRestart(j: Job, now: int): Job {
    if j.state.Running? then
      Released(j, now).(state := Queued, availableAt := now, lastError := "worker restart",
                        interruptions := j.interruptions + 1)
    else j
  }

  lemma RestartIs(q: Queue, now: int)
    ensures var q' := Restart(q, now);
            && |q'.jobs| == |q.jobs| && q'.nextId == q.nextId && q'.issued == q.issued && q'.dead == q.dead
            && forall i :: 0 <= i < |q.jobs| ==> q'.jobs[i] == AfterRestart(q.jobs[i], now)
  {
  }

  ghost predicate Submitted(q: Queue, kind: Kind, objectId: string, now: int, q': Queue) {
    if exists j :: j in q.jobs && (j.state.Queued? || j.state.Running?) && j.kind == kind && j.objectId == objectId
    then q' == q
    else
      && q'.jobs == q.jobs + [Job(q.nextId, kind, objectId, Queued, 0, now, None, None, now, "", 0)]
      && q'.nextId == q.nextId + 1 && q'.issued == q.issued && q'.dead == q.dead
  }

  /** A submission appends a queued row, available at once, unless the object has a queued or running one. */
  lemma SubmitIs(q: Queue, kind: Kind, objectId: string, now: int)
    ensures Submitted(q, kind, objectId, now, Submit(q, kind, objectId, now))
  {
    var i := First(q.jobs, j => Active(j) && Targets(j, kind, objectId));
    if i < |q.jobs| {
      assert q.jobs[i] in q.jobs;
    }
  }

  // ------------------------------------------------------------------------------------------
  // Over runs
  // ------------------------------------------------------------------------------------------

  /** No claim at or after the time, and no restart. */
  predicate Before(events: seq<Event>, time: int) {
    forall i :: 0 <= i < |events| ==> (events[i].Claiming? ==> events[i].now < time) && !events[i].Restarting?
  }

  /** The holder of claim k does nothing. */
  predicate Silent(events: seq<Event>, k: Owner) {
    forall i :: 0 <= i < |events| ==>
      && !(events[i].Completing? && events[i].k == k) && !(events[i].Raising? && events[i].k == k)
      && !(events[i].Renewing? && events[i].k == k)
  }

  lemma {:induction false} BeforeRest(events: seq<Event>, time: int, k: Owner)
    requires events != []
    ensures Before(events, time) ==> Before(events[1..], time)
    ensures Silent(events, k) ==> Silent(events[1..], k)
  {
    forall i | 0 <= i < |events[1..]| ensures events[1..][i] == events[i + 1] {
    }
  }

  /** A row that is not due stays as it is, whatever is not done by its own holder. */
  lemma {:induction false} NextStands(c: Config, q: Queue, e: Event, j: Job)
    requires Inv(c, q) && j in q.jobs && (j.state.Queued? || j.state.Running?) && !e.Restarting?
    requires e.Claiming? ==> !Due(j, e.now)
    requires j.owner.Some? && (e.Completing? || e.Raising? || e.Renewing?) ==> e.k != j.owner.value
    ensures j in Next(c, q, e).jobs
  {
    var i :| 0 <= i < |q.jobs| && q.jobs[i] == j;
    assert JobOk(c, q.issued, j);
    if e.Purging? {
      PurgeExact(q, e.before, j);
    } else {
      assert Next(c, q, e).jobs[i] == j;
    }
  }

  lemma {:induction false} StandsOver(c: Config, q: Queue, events: seq<Event>, j: Job, time: int)
    requires Inv(c, q) && j in q.jobs
    requires if j.state.Running? then j.leaseUntil == Some(time) && j.owner.Some? && Silent(events, j.owner.value)
             else j.state.Queued? && j.availableAt == time
    requires Before(events, time)
    ensures j in Run(c, q, events).jobs
    decreases |events|
  {
    if events != [] {
      var e := events[0];
      if j.owner.Some? {
        BeforeRest(events, time, j.owner.value);
      } else {
        BeforeRest(events, time, 0);
      }
      assert JobOk(c, q.issued, j);
      NextStands(c, q, e, j);
      NextKeeps(c, q, e);
      StandsOver(c, Next(c, q, e), events[1..], j, time);
    }
  }

  /** Row j is due, no row with a lower id is, and the claim takes it from whoever held it. */
  ghost predicate TakenOver(c: Config, q: Queue, j: Job, now: int, q': Queue) {
    && q' == Claim(c, q, now) && |q'.issued| == |q.issued| + 1
    && q'.issued[|q.issued|] == Ticket(j.id, j.kind, j.objectId, j.attempts + 1)
    && j.(state := Running, attempts := j.attempts + 1, updatedAt := now, leaseUntil := Some(now + c.leaseSeconds),
          owner := Some(|q.issued|), interruptions := j.interruptions + if j.state.Running? then 1 else 0) in q'.jobs
    && (j.owner.Some? ==> Lost(q', j.owner.value))
  }

  lemma {:induction false} DueIsTaken(c: Config, q: Queue, j: Job, now: int)
    requires Inv(c, q) && j in q.jobs && Due(j, now)
    requires forall r :: r in q.jobs && r.id < j.id ==> !Due(r, now)
    ensures TakenOver(c, q, j, now, Claim(c, q, now))
  {
    var i :| 0 <= i < |q.jobs| && q.jobs[i] == j;
    forall k | 0 <= k < i ensures !Due(q.jobs[k], now) {
      assert q.jobs[k] in q.jobs && q.jobs[k].id < j.id;
    }
    var q' := Claim(c, q, now);
    ClaimIs(c, q, now, i);
    assert q'.jobs[i] in q'.jobs;
    assert JobOk(c, q.issued, j);
    if j.owner.Some? {
      HolderIs(c, q, j.owner.value, i);
      LeaseIsLost(c, q, Claiming(now), j.owner.value);
    }
  }

  /**
   A lease keeps other workers away for exactly `leaseSeconds`. After a claim at t, or a renewal at t, of the row of
   claim k: over every run without a restart in which the holder does nothing and no other worker polls at or after
   t + leaseSeconds, the row stays as it is, so no claim takes it. A poll at or after that time takes it, when no
   row before it is due: the interruption is counted and the old holder's lease is lost.
   */
  lemma {:induction false} LeaseHolds(c: Config, q: Queue, k: Owner, i: nat, t: int, events: seq<Event>, now: int)
    requires Inv(c, q) && Holds(q, k, i) && q.jobs[i].leaseUntil == Some(t + c.leaseSeconds)
    requires Silent(events, k) && Before(events, t + c.leaseSeconds)
    ensures var j, q' := q.jobs[i], Run(c, q, events);
            && j in q'.jobs
            && (now >= t + c.leaseSeconds && (forall r :: r in q'.jobs && r.id < j.id ==> !Due(r, now)) ==>
                  TakenOver(c, q', j, now, Next(c, q', Claiming(now))))
  {
    RunKeeps(c, q, events);
    StandsOver(c, q, events, q.jobs[i], t + c.leaseSeconds);
    var q' := Run(c, q, events);
    if now >= t + c.leaseSeconds && (forall r :: r in q'.jobs && r.id < q.jobs[i].id ==> !Due(r, now)) {
      DueIsTaken(c, q', q.jobs[i], now);
    }
  }

  /** The lease of a claim, and of a renewal, is the one `LeaseHolds` speaks of. */
  lemma LeaseStarts(c: Config, q: Queue, t: int, k: Owner, i: nat)
    requires Inv(c, q)
    ensures OldestDue(q, i, t) ==>
              && Holds(Claim(c, q, t), |q.issued|, i)
              && Claim(c, q, t).jobs[i].leaseUntil == Some(t + c.leaseSeconds)
    ensures Holds(q, k, i) ==>
              Holds(Renew(c, q, k, t), k, i) && Renew(c, q, k, t).jobs[i].leaseUntil == Some(t + c.leaseSeconds)
  {
    if OldestDue(q, i, t) {
      ClaimIs(c, q, t, i);
    }
    if Holds(q, k, i) {
      FencedIs(c, q, k, i, "", t);
    }
  }

  /**
   A failed attempt waits. After a handler that has raised at t in its a-th attempt, below the limit: over every run
   without a restart and without a poll at or after t + min(60, 2^a) the row stays queued as it is; a poll at or after
   that time takes it, when no row before it is due, for its next attempt.
   */
  lemma {:induction false} BackoffHolds(c: Config, q: Queue, k: Owner, i: nat, error: string, t: int,
                                        events: seq<Event>, now: int)
    requires Inv(c, q) && Holds(q, k, i) && q.jobs[i].attempts < c.maxAttempts
    requires Before(events, t + Wait(q.jobs[i].attempts))
    ensures var a, q1 := q.jobs[i].attempts, RetryOrFail(c, q, k, error, t);
            var q' := Run(c, q1, events);
            && i < |q1.jobs| && q1.jobs[i].id == q.jobs[i].id && q1.jobs[i].state.Queued? && q1.jobs[i].attempts == a
            && q1.jobs[i] in q'.jobs
            && (now >= t + Wait(a) && (forall r :: r in q'.jobs && r.id < q.jobs[i].id ==> !Due(r, now)) ==>
                  TakenOver(c, q', q1.jobs[i], now, Next(c, q', Claiming(now))))
  {
    var q1 := RetryOrFail(c, q, k, error, t);
    FencedIs(c, q, k, i, error, t);
    FencedKeeps(c, q, Raising(k, error, t));
    RunKeeps(c, q1, events);
    assert q1.jobs[i] in q1.jobs;
    StandsOver(c, q1, events, q1.jobs[i], t + Wait(q.jobs[i].attempts));
    var q' := Run(c, q1, events);
    if now >= t + Wait(q.jobs[i].attempts) && (forall r :: r in q'.jobs && r.id < q.jobs[i].id ==> !Due(r, now)) {
      DueIsTaken(c, q', q1.jobs[i], now);
    }
  }
}
