/**
 The upload-session operations as the service executes them, each holding the session lock and cut
 by a crash after any number of steps. Every method is proved to be one uninterleaved run of the step machine
 in `Upload`; the four operations a caller sees state on top of that what they keep and what they achieve.
 */
module UploadService {
  import opened Basics
  import opened PartPlan
  import opened Upload

  class Service {
    const sha: Hash
    var session: Session
    var parts: map<nat, Part>
    var records: map<Id, Record>
    var staged: bool
    var files: map<nat, Bytes>
    var assembled: Option<Bytes>
    var payloads: map<Id, Option<Bytes>>
    ghost var loose: set<nat>

    constructor (sha: Hash, total: Positive, chunk: Positive, expected: Option<Digest>)
      ensures this.sha == sha && Now() == Created(total, chunk, expected).w && Valid()
    {
      this.sha := sha;
      session := Session(total, chunk, expected, Uploading, None);
      parts, records, staged, files, assembled, payloads, loose := map[], map[], true, map[], None, map[], {};
    }

    ghost function Now(): World
      reads this
    {
      World(session, parts, records, staged, files, assembled, payloads, loose)
    }

    ghost predicate Valid()
      reads this
    {
      WorldOk(sha, Now())
    }

    predicate Undisturbed(script: seq<bool>, steps: nat) {
      |script| >= steps && forall j :: 0 <= j < |script| ==> !script[j]
    }

    /** The thread state reached from `pc` at step `start` is the one reached from `pc'` at step `i`. */
    ghost predicate Reaches(op: Op, was: World, pc: Pc, start: nat, pc': Pc, i: nat, script: seq<bool>, uuid: Id)
      reads this
    {
      && start <= i <= |script|
      && Alone(sha, was, op, pc, script, start, uuid) == Alone(sha, Now(), op, pc', script, i, uuid)
    }

    /**
     Put: the size is checked against the plan, the temporary file is complete and verified; then re-check the
     session, rename, commit the row. The row names the sent bytes exactly when the call succeeds; a call whose
     commit raises has replaced the file of the part all the same.
     */
    method PutUploadPart(number: nat, data: Bytes, script: seq<bool>, ghost uuid: Id)
      returns (i: nat, ok: bool, ghost pc: Pc)
      requires Valid()
      modifies this`files, this`parts, this`loose
      ensures Valid() && Follows(old(Now()), Now())
      ensures PlannedPart(session, number, |data|) ==>
                (Now(), pc) == Alone(sha, old(Now()), Put(number, data), Entered, script, 0, uuid)
      ensures parts == if ok then old(parts)[number := Part(|data|, sha(data))] else old(parts)
      ensures ok ==> session.phase.Uploading? && files == old(files)[number := data]
      ensures files == old(files) || files == old(files)[number := data]
      ensures old(!session.phase.Uploading?) || !PlannedPart(session, number, |data|) ==> !ok && Now() == old(Now())
      ensures Undisturbed(script, 4) && old(session.phase.Uploading?) && PlannedPart(session, number, |data|) ==> ok
    {
      ghost var was := Now();
      i, ok, pc := 0, false, Entered;
      FollowsItself(sha, was);
      if !(1 <= number <= session.Count()) || |data| != PlannedSize(session.total, session.chunk, number) { return; }
      AloneKeeps(sha, was, Put(number, data), Entered, script, 0, uuid);
      if !session.phase.Uploading? {
        RefusedAlone(sha, was, Put(number, data), script, uuid);
      }
      i, ok, pc := RenameAndCommit(number, data, script, uuid);
    }

    method RenameAndCommit(number: nat, data: Bytes, script: seq<bool>, ghost uuid: Id)
      returns (i: nat, ok: bool, ghost pc: Pc)
      modifies this`files, this`parts, this`loose
      ensures (Now(), pc) == Alone(sha, old(Now()), Put(number, data), Entered, script, 0, uuid)
      ensures parts == if ok then old(parts)[number := Part(|data|, sha(data))] else old(parts)
      ensures ok ==> session.phase.Uploading? && files == old(files)[number := data]
      ensures files == old(files) || files == old(files)[number := data]
      ensures Undisturbed(script, 4) && session.phase.Uploading? && staged ==> ok
    {
      ghost var op := Put(number, data);
      i, ok, pc := 0, false, Entered;
      if i == |script| { return; }
      var writable := session.phase.Uploading? && !script[i];
      pc, i := if writable then Renaming else Leaving, i + 1;
      assert Reaches(op, old(Now()), Entered, 0, pc, i, script, uuid);
      if writable {
        if i == |script| { return; }
        Onward(sha, Now(), op, pc, script, i, uuid);
        var renamed := staged && !script[i];
        if renamed {
          files, loose := files[number := data], loose - {number};
        }
        pc, i := if renamed then Committing else Leaving, i + 1;
        assert Reaches(op, old(Now()), Entered, 0, pc, i, script, uuid);
        if renamed {
          if i == |script| { return; }
          Onward(sha, Now(), op, pc, script, i, uuid);
          if session.phase.Uploading? && !script[i] {
            parts, ok := parts[number := Part(|data|, sha(data))], true;
          } else {
            loose := loose + {number};
          }
          pc, i := Leaving, i + 1;
          assert Reaches(op, old(Now()), Entered, 0, pc, i, script, uuid);
        }
      }
      i, pc := Leave(op, script, i, uuid);
    }

    method Leave(ghost op: Op, script: seq<bool>, start: nat, ghost uuid: Id) returns (i: nat, ghost pc: Pc)
      requires start <= |script|
      ensures Reaches(op, Now(), Leaving, start, pc, i, script, uuid)
      ensures i == |script| || pc.Gone?
    {
      i, pc := start, Leaving;
      if i < |script| {
        pc, i := Gone, i + 1;
      }
    }

    /** After a terminal commit: remove the staging tree, the part rows and the lock entry. */
    method CleanUp(ghost op: Op, script: seq<bool>, start: nat, ghost uuid: Id) returns (i: nat, ghost pc: Pc)
      requires start <= |script|
      modifies this`staged, this`files, this`assembled, this`parts
      ensures Reaches(op, old(Now()), Wiping, start, pc, i, script, uuid)
      ensures i == |script| || pc.Gone?
    {
      i, pc := start, Wiping;
      if i == |script| { return; }
      if !script[i] {
        staged, files, assembled := false, map[], None;
      }
      pc, i := Purging, i + 1;
      assert Reaches(op, old(Now()), Wiping, start, pc, i, script, uuid);
      i, pc := DropParts(op, script, i, uuid);
    }

    method DropParts(ghost op: Op, script: seq<bool>, start: nat, ghost uuid: Id) returns (i: nat, ghost pc: Pc)
      requires start <= |script|
      modifies this`parts
      ensures Reaches(op, old(Now()), Purging, start, pc, i, script, uuid)
      ensures i == |script| || pc.Gone?
    {
      i, pc := start, Purging;
      if i == |script| { return; }
      var failed := script[i];
      if !failed {
        parts := map[];
      }
      pc, i := if failed then Leaving else Forgetting, i + 1;
      assert Reaches(op, old(Now()), Purging, start, pc, i, script, uuid);
      if !failed {
        if i == |script| { return; }
        Onward(sha, Now(), op, pc, script, i, uuid);
        pc, i := Leaving, i + 1;
        assert Reaches(op, old(Now()), Purging, start, pc, i, script, uuid);
      }
      i, pc := Leave(op, script, i, uuid);
    }

    /**
     Cancel by the owner, or expiry by maintenance: a session that is over stays as it is, and so does one whose
     completion has begun when it is to be cancelled; an open one loses its files and part rows but never a
     registered object.
     */
    method EndSession(op: Op, script: seq<bool>, ghost uuid: Id) returns (i: nat, ghost pc: Pc)
      requires Valid() && (op.Cancel? || op.Expire?)
      modifies this`session, this`staged, this`files, this`assembled, this`parts
      ensures (Now(), pc) == Alone(sha, old(Now()), op, Entered, script, 0, uuid)
      ensures Valid() && Follows(old(Now()), Now())
      ensures old(session.phase.Terminal()) || (op.Cancel? && old(session.phase.Completing?)) ==> Now() == old(Now())
      ensures Undisturbed(script, 5) && old(session.phase.Uploading? || (op.Expire? && session.phase.Completing?)) ==>
                && session.phase == (if op.Cancel? then Cancelled else Expired)
                && records == old(records) && payloads == old(payloads)
                && !staged && files == map[] && parts == map[] && assembled.None?
    {
      ghost var was := Now();
      AloneKeeps(sha, was, op, Entered, script, 0, uuid);
      if session.phase.Terminal() || (op.Cancel? && session.phase.Completing?) {
        RefusedAlone(sha, was, op, script, uuid);
      } else if Undisturbed(script, 5) && (session.phase.Uploading? || op.Expire?) {
        EndingAlone(sha, was, op, script, uuid);
      }
      i, pc := CommitEnd(op, script, uuid);
    }

    /** One guarded update, then the clean-up. */
    method CommitEnd(op: Op, script: seq<bool>, ghost uuid: Id) returns (i: nat, ghost pc: Pc)
      requires op.Cancel? || op.Expire?
      modifies this`session, this`staged, this`files, this`assembled, this`parts
      ensures (Now(), pc) == Alone(sha, old(Now()), op, Entered, script, 0, uuid)
    {
      i, pc := 0, Entered;
      if i == |script| { return; }
      var refused := op.Cancel? && (!session.phase.Uploading? || script[i]);
      var to := if op.Cancel? then Cancelled else Expired;
      pc, i := if refused then Leaving else Ending(to), i + 1;
      assert Reaches(op, old(Now()), Entered, 0, pc, i, script, uuid);
      if refused {
        i, pc := Leave(op, script, i, uuid);
        return;
      }
      if i == |script| { return; }
      Onward(sha, Now(), op, pc, script, i, uuid);
      if !script[i] && (session.phase.Uploading? || (op.Expire? && session.phase.Completing?)) {
        session := session.(phase := to);
        pc, i := Wiping, i + 1;
        assert Reaches(op, old(Now()), Entered, 0, pc, i, script, uuid);
        i, pc := CleanUp(op, script, i, uuid);
      } else {
        pc, i := Leaving, i + 1;
        assert Reaches(op, old(Now()), Entered, 0, pc, i, script, uuid);
        i, pc := Leave(op, script, i, uuid);
      }
    }

    method Finalize(id: Id, recovered: bool, script: seq<bool>, start: nat, ghost uuid: Id)
      returns (i: nat, ghost pc: Pc)
      requires start <= |script|
      modifies this`session, this`staged, this`files, this`assembled, this`parts
      ensures Reaches(Complete, old(Now()), Finalizing(id, recovered), start, pc, i, script, uuid)
      ensures i == |script| || pc.Gone?
    {
      i, pc := start, Finalizing(id, recovered);
      if i == |script| { return; }
      if session.phase.Cancelled? || session.phase.Expired? || script[i] {
        pc, i := if recovered then Leaving else Resetting, i + 1;
        assert Reaches(Complete, old(Now()), Finalizing(id, recovered), start, pc, i, script, uuid);
        if recovered {
          i, pc := Leave(Complete, script, i, uuid);
        } else {
          i, pc := Reset(script, i, uuid);
        }
      } else {
        session := session.(phase := Completed, objectId := Some(id));
        pc, i := Wiping, i + 1;
        assert Reaches(Complete, old(Now()), Finalizing(id, recovered), start, pc, i, script, uuid);
        i, pc := CleanUp(Complete, script, i, uuid);
      }
    }

    /** The exception handler of a completion and its `finally` clause. */
    method Reset(script: seq<bool>, start: nat, ghost uuid: Id) returns (i: nat, ghost pc: Pc)
      requires start <= |script|
      modifies this`session, this`assembled
      ensures Reaches(Complete, old(Now()), Resetting, start, pc, i, script, uuid)
      ensures i == |script| || pc.Gone?
    {
      i, pc := start, Resetting;
      if i == |script| { return; }
      if session.phase.Completing? && !script[i] {
        session := session.(phase := Uploading);
      }
      pc, i := Unlinking, i + 1;
      assert Reaches(Complete, old(Now()), Resetting, start, pc, i, script, uuid);
      if i == |script| { return; }
      Onward(sha, Now(), Complete, pc, script, i, uuid);
      if !script[i] {
        assembled := None;
      }
      pc, i := Leaving, i + 1;
      assert Reaches(Complete, old(Now()), Resetting, start, pc, i, script, uuid);
      i, pc := Leave(Complete, script, i, uuid);
    }

    /**
     Completion. Whatever fails and wherever a crash cuts it, the session keeps its planned identifier and a
     completed session names an object with the checked bytes. A session with a missing part, or with an attempt that
     has not come to an end and registered nothing, is refused as it is. Undisturbed, on a session whose parts are all
     received, it completes exactly when the bytes match and nothing was left behind; when an earlier attempt has
     registered the object it completes with that. Either way nothing is left in staging; an attempt that does not
     complete leaves everything in its place but the assembly file.
     */
    method CompleteUploadSession(script: seq<bool>, uuid: Id) returns (i: nat, ghost pc: Pc)
      requires Valid() && FreshId(Now(), uuid)
      modifies this
      ensures (Now(), pc) == Alone(sha, old(Now()), Complete, Entered, script, 0, uuid)
      ensures Valid() && Follows(old(Now()), Now())
      ensures old(session.phase.Terminal()) ==> Now() == old(Now())
      ensures session.phase.Completed? ==>
                && session.objectId.Some? && session.objectId.value in records && session.objectId.value in payloads
                && payloads[session.objectId.value].Some?
                && Matches(sha, session, payloads[session.objectId.value].value)
                && records[session.objectId.value].digest == sha(payloads[session.objectId.value].value)
      ensures old(session.objectId.Some? ==> session.objectId.value !in records) ==>
                (old(session.phase.Completing? || exists n :: 1 <= n <= session.Count() && n !in parts) ==>
                   Now() == old(Now()))
      ensures old(Undisturbed(script, session.Count() + 14) && !session.phase.Terminal()) ==>
                (session.phase.Completed? <==>
                   if old(session.objectId.Some? && session.objectId.value in records) then true
                   else
                     && old(session.phase.Uploading? && (forall n :: 1 <= n <= session.Count() ==> n in parts))
                     && old(assembled).None? && Reserved(old(Now()), uuid) !in old(payloads)
                     && Matches(sha, old(session), Joined(old(files), old(session.Count()))))
      ensures old(Undisturbed(script, session.Count() + 14) && !session.phase.Terminal())
              && session.phase.Completed? ==>
                && session.objectId == Some(Reserved(old(Now()), uuid))
                && !staged && files == map[] && assembled.None? && parts == map[]
      ensures old(Undisturbed(script, session.Count() + 14) && !session.phase.Terminal())
              && !session.phase.Completed? ==>
                && session.phase == old(session.phase) && staged == old(staged) && parts == old(parts)
                && files == old(files) && records == old(records) && payloads == old(payloads)
    {
      ghost var was := Now();
      AloneKeeps(sha, was, Complete, Entered, script, 0, uuid);
      if session.phase.Terminal() {
        TerminalAlone(sha, was, Complete, script, uuid);
      } else if RefusedBy(was, Complete) {
        RefusedAlone(sha, was, Complete, script, uuid);
      } else if Undisturbed(script, session.Count() + 14) {
        UndisturbedCompletion(script, uuid);
      }
      i, pc := EnterCompletion(script, uuid);
      assert session.phase.Completed? ==> Registered(sha, Now(), session.objectId.value);
    }

    /** What an undisturbed completion comes to when it is not refused. */
    lemma {:induction false} UndisturbedCompletion(script: seq<bool>, uuid: Id)
      requires Valid() && FreshId(Now(), uuid) && !session.phase.Terminal() && !RefusedBy(Now(), Complete)
      requires Undisturbed(script, session.Count() + 14)
      ensures var w', id := Alone(sha, Now(), Complete, Entered, script, 0, uuid).0, Reserved(Now(), uuid);
              && (w'.session.phase.Completed? <==>
                    if session.objectId.Some? && session.objectId.value in records then true
                    else
                      && session.phase.Uploading? && (forall n :: 1 <= n <= session.Count() ==> n in parts)
                      && assembled.None? && id !in payloads
                      && Matches(sha, session, Joined(files, session.Count())))
              && (w'.session.phase.Completed? ==>
                    && w'.session.objectId == Some(id)
                    && !w'.staged && w'.files == map[] && w'.assembled.None? && w'.parts == map[])
              && (!w'.session.phase.Completed? ==>
                    w' == Now().(session := session.(objectId := Some(id)), assembled := None))
    {
      if session.objectId.Some? && session.objectId.value in records {
        RecoveredCompletes(sha, Now(), script, uuid);
      } else {
        PresentIsReceived(sha, Now());
        RetryCompletes(sha, Now(), script, uuid);
      }
    }

    method EnterCompletion(script: seq<bool>, uuid: Id) returns (i: nat, ghost pc: Pc)
      requires FreshId(Now(), uuid)
      modifies this
      ensures (Now(), pc) == Alone(sha, old(Now()), Complete, Entered, script, 0, uuid)
    {
      i, pc := 0, Entered;
      if i == |script| { return; }
      var id := session.objectId;
      var numbers := Ordered(parts.Keys, session.Count());
      if script[i] || (session.phase.Completed? && id.Some?) {
        pc, i := Leaving, i + 1;
        assert Reaches(Complete, old(Now()), Entered, 0, pc, i, script, uuid);
        i, pc := Leave(Complete, script, i, uuid);
      } else if id.Some? && id.value in records {
        pc, i := Finalizing(id.value, true), i + 1;
        assert Reaches(Complete, old(Now()), Entered, 0, pc, i, script, uuid);
        i, pc := Finalize(id.value, true, script, i, uuid);
      } else if !session.phase.Uploading? || |numbers| != session.Count() ||
                Received(map n | n in parts :: parts[n].size, session.Count()) != session.total {
        pc, i := Leaving, i + 1;
        assert Reaches(Complete, old(Now()), Entered, 0, pc, i, script, uuid);
        i, pc := Leave(Complete, script, i, uuid);
      } else {
        pc, i := Reserving(id, numbers), i + 1;
        assert Reaches(Complete, old(Now()), Entered, 0, pc, i, script, uuid);
        i, pc := Reserve(id, numbers, script, i, uuid);
      }
    }

    /** Persist the planned identifier before any byte is assembled. */
    method Reserve(plan: Option<Id>, numbers: seq<nat>, script: seq<bool>, start: nat, uuid: Id)
      returns (i: nat, ghost pc: Pc)
      requires start <= |script| && session.phase.Uploading? && FreshId(Now(), uuid)
      modifies this
      ensures Reaches(Complete, old(Now()), Reserving(plan, numbers), start, pc, i, script, uuid)
      ensures i == |script| || pc.Gone?
    {
      i, pc := start, Reserving(plan, numbers);
      if i == |script| { return; }
      if script[i] {
        pc, i := Leaving, i + 1;
        assert Reaches(Complete, old(Now()), Reserving(plan, numbers), start, pc, i, script, uuid);
        i, pc := Leave(Complete, script, i, uuid);
        return;
      }
      var id := if plan.Some? then plan.value else uuid;
      session := session.(phase := Completing, objectId := Some(id));
      pc, i := Opening(id, numbers), i + 1;
      assert Reaches(Complete, old(Now()), Reserving(plan, numbers), start, pc, i, script, uuid);
      var assembledAll;
      i, assembledAll, pc := Assemble(id, numbers, script, i, uuid);
      if assembledAll {
        i, pc := Register(id, script, i, uuid);
      }
    }

    /** Concatenate the part files into assembled.tmp. */
    method Assemble(id: Id, numbers: seq<nat>, script: seq<bool>, start: nat, uuid: Id)
      returns (i: nat, done: bool, ghost pc: Pc)
      requires start <= |script|
      modifies this`session, this`assembled
      ensures Reaches(Complete, old(Now()), Opening(id, numbers), start, pc, i, script, uuid)
      ensures if done then pc == Checking(id) else i == |script| || pc.Gone?
    {
      i, done, pc := start, false, Opening(id, numbers);
      if i == |script| { return; }
      if assembled.Some? || !staged || script[i] {
        pc, i := Resetting, i + 1;
        assert Reaches(Complete, old(Now()), Opening(id, numbers), start, pc, i, script, uuid);
        i, pc := Reset(script, i, uuid);
        return;
      }
      assembled := Some([]);
      pc, i := Copying(id, numbers, 0), i + 1;
      assert Reaches(Complete, old(Now()), Opening(id, numbers), start, pc, i, script, uuid);
      i, done, pc := CopyParts(id, numbers, script, i, uuid);
    }

    method CopyParts(id: Id, numbers: seq<nat>, script: seq<bool>, start: nat, uuid: Id)
      returns (i: nat, done: bool, ghost pc: Pc)
      requires start <= |script| && assembled == Some([])
      modifies this`session, this`assembled
      ensures Reaches(Complete, old(Now()), Copying(id, numbers, 0), start, pc, i, script, uuid)
      ensures if done then pc == Checking(id) else i == |script| || pc.Gone?
    {
      ghost var was := Now();
      i, done, pc := start, false, Copying(id, numbers, 0);
      for k := 0 to |numbers|
        invariant pc == Copying(id, numbers, k) && assembled.Some? && !done
        invariant Reaches(Complete, was, Copying(id, numbers, 0), start, pc, i, script, uuid)
      {
        if i == |script| { return; }
        var copied;
        i, copied, pc := CopyPart(id, numbers, k, script, i, uuid);
        if !copied { return; }
      }
      if i == |script| { return; }
      Onward(sha, Now(), Complete, pc, script, i, uuid);
      pc, i, done := Checking(id), i + 1, true;
      assert Reaches(Complete, was, Copying(id, numbers, 0), start, pc, i, script, uuid);
    }

    /** Append one part file, or fail. */
    method CopyPart(id: Id, numbers: seq<nat>, k: nat, script: seq<bool>, start: nat, uuid: Id)
      returns (i: nat, copied: bool, ghost pc: Pc)
      requires start < |script| && k < |numbers| && assembled.Some?
      modifies this`session, this`assembled
      ensures Reaches(Complete, old(Now()), Copying(id, numbers, k), start, pc, i, script, uuid)
      ensures if copied then pc == Copying(id, numbers, k + 1) && assembled.Some? else i == |script| || pc.Gone?
    {
      i, copied := start + 1, numbers[k] in files && !script[start];
      if copied {
        assembled := Some(assembled.value + files[numbers[k]]);
        pc := Copying(id, numbers, k + 1);
      } else {
        pc := Resetting;
        assert Reaches(Complete, old(Now()), Copying(id, numbers, k), start, pc, i, script, uuid);
        i, pc := Reset(script, i, uuid);
      }
    }

    /** Verify the assembled bytes, move them to their isolation directory and insert the object row. */
    method Register(id: Id, script: seq<bool>, start: nat, uuid: Id) returns (i: nat, ghost pc: Pc)
      requires start <= |script|
      modifies this
      ensures Reaches(Complete, old(Now()), Checking(id), start, pc, i, script, uuid)
      ensures i == |script| || pc.Gone?
    {
      i, pc := start, Checking(id);
      if i == |script| { return; }
      if assembled.None? || !Matches(sha, session, assembled.value) || script[i] {
        pc, i := Resetting, i + 1;
        assert Reaches(Complete, old(Now()), Checking(id), start, pc, i, script, uuid);
        i, pc := Reset(script, i, uuid);
      } else {
        pc, i := MakingDir(id), i + 1;
        assert Reaches(Complete, old(Now()), Checking(id), start, pc, i, script, uuid);
        i, pc := MakeTarget(id, script, i, uuid);
      }
    }

    method MakeTarget(id: Id, script: seq<bool>, start: nat, uuid: Id) returns (i: nat, ghost pc: Pc)
      requires start <= |script| && assembled.Some?
      modifies this
      ensures Reaches(Complete, old(Now()), MakingDir(id), start, pc, i, script, uuid)
      ensures i == |script| || pc.Gone?
    {
      i, pc := start, MakingDir(id);
      if i == |script| { return; }
      if id in payloads || script[i] {
        pc, i := Resetting, i + 1;
        assert Reaches(Complete, old(Now()), MakingDir(id), start, pc, i, script, uuid);
        i, pc := Reset(script, i, uuid);
      } else {
        payloads := payloads[id := None];
        pc, i := Moving(id), i + 1;
        assert Reaches(Complete, old(Now()), MakingDir(id), start, pc, i, script, uuid);
        i, pc := MoveIn(id, script, i, uuid);
      }
    }

    method MoveIn(id: Id, script: seq<bool>, start: nat, uuid: Id) returns (i: nat, ghost pc: Pc)
      requires start <= |script| && assembled.Some?
      modifies this
      ensures Reaches(Complete, old(Now()), Moving(id), start, pc, i, script, uuid)
      ensures i == |script| || pc.Gone?
    {
      i, pc := start, Moving(id);
      if i == |script| { return; }
      if script[i] {
        pc, i := Resetting, i + 1;
        assert Reaches(Complete, old(Now()), Moving(id), start, pc, i, script, uuid);
        i, pc := Reset(script, i, uuid);
      } else {
        var digest := sha(assembled.value);
        payloads, assembled := payloads[id := assembled], None;
        pc, i := Inserting(id, digest), i + 1;
        assert Reaches(Complete, old(Now()), Moving(id), start, pc, i, script, uuid);
        i, pc := Insert(id, digest, script, i, uuid);
      }
    }

    method Insert(id: Id, digest: Digest, script: seq<bool>, start: nat, uuid: Id) returns (i: nat, ghost pc: Pc)
      requires start <= |script|
      modifies this
      ensures Reaches(Complete, old(Now()), Inserting(id, digest), start, pc, i, script, uuid)
      ensures i == |script| || pc.Gone?
    {
      i, pc := start, Inserting(id, digest);
      if i == |script| { return; }
      var failed := id in records || script[i];
      if !failed {
        records := records[id := Record(session.total, digest, true)];
      }
      pc, i := if failed then Undoing(id) else Finalizing(id, false), i + 1;
      assert Reaches(Complete, old(Now()), Inserting(id, digest), start, pc, i, script, uuid);
      if failed {
        i, pc := Undo(id, script, i, uuid);
      } else {
        i, pc := Finalize(id, false, script, i, uuid);
      }
    }

    /** The object row could not be inserted: its directory goes again. */
    method Undo(id: Id, script: seq<bool>, start: nat, uuid: Id) returns (i: nat, ghost pc: Pc)
      requires start <= |script|
      modifies this
      ensures Reaches(Complete, old(Now()), Undoing(id), start, pc, i, script, uuid)
      ensures i == |script| || pc.Gone?
    {
      i, pc := start, Undoing(id);
      if i == |script| { return; }
      payloads := payloads - {id};
      pc, i := Resetting, i + 1;
      assert Reaches(Complete, old(Now()), Undoing(id), start, pc, i, script, uuid);
      i, pc := Reset(script, i, uuid);
    }

    /** `recover_interrupted_jobs` for this session, cut after `fuse` steps; uncut, it leaves nothing completing. */
    method RecoverInterrupted(fuse: nat) returns (ghost mode: Mode)
      requires Valid()
      modifies this
      ensures (Now(), mode) == Booted(sha, old(Now()), Recovering, fuse)
      ensures Valid() && Follows(old(Now()), Now()) && records == old(records)
      ensures old(session.phase.Uploading?) ==> Now() == old(Now())
      ensures fuse == 7 ==> mode.Serving? && !session.phase.Completing?
      ensures fuse == 7 && old(session.phase.Completing?) ==>
                (session.phase.Completed? <==> session.objectId.value in records)
    {
      ghost var was := Now();
      BootedFollows(sha, was, Recovering, fuse);
      BootedRecords(sha, was, Recovering, fuse);
      if fuse == 7 {
        RecoverySettles(sha, was);
      }
      mode := Recover(fuse);
    }

    method Recover(fuse: nat) returns (ghost mode: Mode)
      modifies this
      ensures (Now(), mode) == Booted(sha, old(Now()), Recovering, fuse)
    {
      var left := fuse;
      mode := Recovering;
      if left == 0 { return; }
      left := left - 1;
      if session.phase.Completing? {
        if session.objectId.Some? && session.objectId.value in records {
          left, mode := BindRecord(session.objectId.value, left);
        } else {
          left, mode := Reopen(left);
        }
      } else {
        mode := Sweeping;
      }
      if left == 0 { return; }
      mode := Sweep(left);
    }

    method BindRecord(id: Id, fuse: nat) returns (left: nat, ghost mode: Mode)
      modifies this
      ensures Booted(sha, old(Now()), Binding(id), fuse) == Booted(sha, Now(), mode, left)
      ensures left == 0 || mode.Sweeping?
    {
      left, mode := fuse, Binding(id);
      if left == 0 { return; }
      session, left, mode := session.(phase := Completed, objectId := Some(id)), left - 1, BindingWipe;
      assert Booted(sha, old(Now()), Binding(id), fuse) == Booted(sha, Now(), mode, left);
      if left == 0 { return; }
      staged, files, assembled, left, mode := false, map[], None, left - 1, BindingPurge;
      assert Booted(sha, old(Now()), Binding(id), fuse) == Booted(sha, Now(), mode, left);
      if left == 0 { return; }
      parts, left, mode := map[], left - 1, Sweeping;
    }

    ghost function ReopenFrom(id: Option<Id>): Mode {
      if id.Some? then ClearingTarget(id.value) else ClearingAssembly
    }

    method Reopen(fuse: nat) returns (left: nat, ghost mode: Mode)
      modifies this
      ensures Booted(sha, old(Now()), ReopenFrom(old(session.objectId)), fuse) == Booted(sha, Now(), mode, left)
      ensures left == 0 || mode.Sweeping?
    {
      ghost var was, start := Now(), ReopenFrom(session.objectId);
      left, mode := fuse, start;
      if session.objectId.Some? {
        if left == 0 { return; }
        payloads, left, mode := payloads - {session.objectId.value}, left - 1, ClearingAssembly;
      }
      assert Booted(sha, was, start, fuse) == Booted(sha, Now(), mode, left);
      if left == 0 { return; }
      assembled, left, mode := None, left - 1, Reopening;
      assert Booted(sha, was, start, fuse) == Booted(sha, Now(), mode, left);
      if left == 0 { return; }
      session, left, mode := session.(phase := Uploading), left - 1, Sweeping;
      assert Booted(sha, was, start, fuse) == Booted(sha, Now(), mode, left);
    }

    method Sweep(fuse: nat) returns (ghost mode: Mode)
      modifies this
      ensures (Now(), mode) == Booted(sha, old(Now()), Sweeping, fuse)
    {
      var left := fuse;
      mode := Sweeping;
      if left == 0 { return; }
      left := left - 1;
      if session.phase.Terminal() {
        staged, files, assembled, mode := false, map[], None, SweepingParts;
        assert Booted(sha, old(Now()), Sweeping, fuse) == Booted(sha, Now(), mode, left);
        if left == 0 { return; }
        parts, left := map[], left - 1;
      }
      mode := Serving;
      assert Booted(sha, old(Now()), Sweeping, fuse) == Booted(sha, Now(), mode, left);
    }
  }
}
