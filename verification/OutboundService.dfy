/**
 The outbound operations as the service executes them, cut by a crash after any number of steps. Every method
 is proved to be one uninterleaved run of a thread of the machine in `Outbound`; the scan, the decision, the
 release and the callback handler state on top of that what they keep and what they achieve.
 */
module OutboundService {
  import opened Basics
  import opened Outbound
  import opened OutboundCallback
  import OutboundOutcome
  import OutboundScan

  const TO_GREEN: Move := To(ReleasedToGreen, ToEnd(true), ToEnd(false))

  class Service {
    const sha: Hash
    const skew: nat
    ghost const submitted: Bytes
    var row: Row
    var iso: Option<File>
    var greenDir: bool
    var green: Option<File>
    var log: seq<Entry>
    var callbacks: map<EventId, CallbackRow>
    var policy: Policy
    var runtime: bool
    ghost var dropped: bool
    var nonces: map<Nonce, Bound>

    constructor (sha: Hash, skew: nat, bytes: Bytes, typeConflict: bool, provider: Provider, policy: Policy)
      ensures this.sha == sha && this.skew == skew && submitted == bytes && nonces == map[] && Valid()
      ensures Now() == Submitted(sha, bytes, typeConflict, provider, policy).w
    {
      this.sha, this.skew, submitted := sha, skew, bytes;
      row := Row(PendingScan, |bytes|, sha(bytes), typeConflict, provider, Isolation, None, None, None);
      iso, greenDir, green := Some(File(bytes, false)), false, None;
      log, callbacks, nonces := [Registered], map[], map[];
      this.policy, runtime, dropped := policy, true, false;
    }

    ghost function Now(): World
      reads this
    {
      World(row, iso, greenDir, green, log, callbacks, policy, runtime, dropped)
    }

    /** The store on its own, without running threads. */
    ghost function Stored(tampered: bool): System
      reads this
    {
      System(Now(), map[], submitted, tampered)
    }

    ghost predicate Valid()
      reads this
    {
      Inv(sha, Stored(true))
    }

    ghost predicate Reaches(op: Op, was: World, l: Local, start: nat, l': Local, i: nat, script: seq<Choice>)
      reads this
    {
      && start <= i <= |script|
      && Alone(sha, was, op, l, script, start) == Alone(sha, Now(), op, l', script, i)
    }

    /** `outbound_transition`: read the state, then one guarded update together with its audit event. */
    method Transition(m: Move, ghost op: Op, was: Local, script: seq<Choice>, start: nat)
      returns (i: nat, moved: bool, l: Local)
      requires start <= |script|
      modifies this`row, this`log
      ensures Reaches(op, old(Now()), was.(pc := Reading(m)), start, l, i, script)
      ensures i == |script| || l == was.(pc := Resume(if moved then m.next else m.fail))
      ensures row.actor == if moved && m.actor.Some? then m.actor else old(row.actor)
      ensures if moved then row.state == m.to else row == old(row)
    {
      ghost var begin := was.(pc := Reading(m));
      i, moved, l := start, false, was.(pc := Reading(m));
      if i == |script| { return; }
      var from, allowed := row.state, script[i].ok && Allowed(row.state, m.to);
      l, i := l.(pc := if allowed then Swapping(from, m) else Resume(m.fail)), i + 1;
      assert Reaches(op, old(Now()), begin, start, l, i, script);
      if !allowed || i == |script| { return; }
      i, moved, l := SwapState(from, m, op, was, script, i);
    }

    /** The update guarded by the state that was read. */
    method SwapState(from: State, m: Move, ghost op: Op, was: Local, script: seq<Choice>, start: nat)
      returns (i: nat, moved: bool, l: Local)
      requires start < |script|
      modifies this`row, this`log
      ensures Reaches(op, old(Now()), was.(pc := Swapping(from, m)), start, l, i, script)
      ensures l == was.(pc := Resume(if moved then m.next else m.fail))
      ensures row.actor == if moved && m.actor.Some? then m.actor else old(row.actor)
      ensures if moved then row.state == m.to else row == old(row)
    {
      i, l := start + 1, was.(pc := Swapping(from, m));
      SwappingIs(sha, Now(), op, l, script[start]);
      Onward(sha, Now(), op, l, script, start);
      moved := script[start].ok && row.state == from;
      if moved {
        row := row.(state := m.to,
                    classification := if m.category.Some? then m.category else row.classification,
                    approvalId := if m.approvalId.Some? then m.approvalId else row.approvalId,
                    actor := if m.actor.Some? then m.actor else row.actor);
        log := log + [Changed(from, m.to, m.actor, l.pass)];
      }
      l := l.(pc := Resume(if moved then m.next else m.fail));
    }

    /**
     `release_approved_outbound` as maintenance and recovery call it. Without an accepted runtime and a durable approval
     it changes nothing; an approved transfer that the policy no longer permits expires. It succeeds only with the
     payload in the green directory and nowhere else. Undisturbed, on an approved transfer whose payload nobody has
     rewritten, it succeeds and delivers the submitted bytes, wherever earlier attempts were cut.
     */
    method Release(script: seq<Choice>) returns (ok: bool)
      requires Valid()
      modifies this`row, this`iso, this`greenDir, this`green, this`log, this`dropped
      ensures Now() == Alone(sha, old(Now()), Outbound.Release, RELEASING, script, 0).0
      ensures Valid() && old(log) <= log && row.actor == old(row.actor)
      ensures ok ==> row.state.ReleasedToGreen? && (old(dropped) || (row.place.Green? && green.Some? && iso.None?))
      ensures old(!runtime || !row.state.Approved?) ==> Now() == old(Now())
      ensures OutboundOutcome.Undisturbed(script) && old(runtime && row.state.Approved?)
              && !old(OutboundScan.Permitted(policy, row)) ==>
                !ok && OutboundScan.Held(old(Now()), Now(), old(row).(state := Expired))
      ensures old(!dropped && row.state.Approved? && runtime && Permits(policy, row) && BytesOk(Now(), submitted))
              && |script| >= 11 && Calm(script) ==>
                row.state.ReleasedToGreen? && green.Some? && green.value.bytes == submitted
    {
      ghost var was := Now();
      AloneKeeps(sha, was, Outbound.Release, RELEASING, script, 0);
      AloneDropsNothing(sha, was, Outbound.Release, RELEASING, script, 0);
      AloneMovesBytes(sha, was, Outbound.Release, RELEASING, script, 0, submitted);
      if OutboundOutcome.Undisturbed(script) {
        OutboundOutcome.ReleaseOutcome(sha, was, script);
      }
      if !row.state.Approved? || !runtime {
        OutboundOutcome.UnapprovedAlone(sha, was, script);
      } else if Permits(policy, row) && BytesOk(was, submitted) && |script| >= 11
        && Calm(script) {
        ReleaseRecovers(sha, Stored(false), script);
      }
      var i, l;
      i, ok, l := ReleaseApprovedOutbound(Outbound.Release, RELEASING, script, 0);
      EndOfCall(sha, Now(), Outbound.Release, l, script, i);
    }

    method ReleaseApprovedOutbound(ghost op: Op, was: Local, script: seq<Choice>, start: nat)
      returns (i: nat, ok: bool, l: Local)
      requires start <= |script| && was.pc == ReleaseRead
      modifies this`row, this`iso, this`greenDir, this`green, this`log, this`dropped
      ensures Reaches(op, old(Now()), was, start, l, i, script)
      ensures i == |script| || l.pc == Ending(ok)
      ensures ok ==> row.state.ReleasedToGreen?
      ensures row.actor == old(row.actor)
      ensures ok || row.state == old(row.state) || row.state.Expired?
    {
      i, ok, l := start, false, was;
      if i == |script| { return; }
      if !script[i].ok || !runtime || !row.state.Approved? {
        ok := script[i].ok && runtime && row.state.ReleasedToGreen?;
        l, i := l.(pc := Ending(ok)), i + 1;
        assert Reaches(op, old(Now()), was, start, l, i, script);
      } else if !Permits(policy, row) {
        i, l := ExpireByPolicy(op, l, script, i);
      } else {
        l, i := l.(pc := MakeDir, path := row.place, pass := l.pass.(permitted := true)), i + 1;
        assert Reaches(op, old(Now()), was, start, l, i, script);
        i, ok, l := Promote(op, l, script, i);
      }
    }

    method ExpireByPolicy(ghost op: Op, was: Local, script: seq<Choice>, start: nat) returns (i: nat, l: Local)
      requires start < |script| && was.pc == ReleaseRead && script[start].ok
      requires runtime && row.state.Approved? && !Permits(policy, row)
      modifies this`row, this`log
      ensures Reaches(op, old(Now()), was, start, l, i, script)
      ensures i == |script| || l.pc == Ending(false)
      ensures row.actor == old(row.actor)
      ensures row.state == old(row.state) || row.state.Expired?
    {
      var m := To(Expired, ToEnd(false), ToEnd(false));
      i, l := start + 1, was.(pc := Reading(m));
      assert Reaches(op, old(Now()), was, start, l, i, script);
      var moved;
      i, moved, l := Transition(m, op, l, script, i);
    }

    method Promote(ghost op: Op, was: Local, script: seq<Choice>, start: nat)
      returns (i: nat, ok: bool, l: Local)
      requires start <= |script| && was.pc == MakeDir
      modifies this`row, this`iso, this`greenDir, this`green, this`log, this`dropped
      ensures Reaches(op, old(Now()), was, start, l, i, script)
      ensures i == |script| || l.pc == Ending(ok)
      ensures ok ==> row.state.ReleasedToGreen?
      ensures row.actor == old(row.actor)
      ensures ok || row.state == old(row.state) || row.state.Expired?
    {
      i, ok, l := start, false, was;
      if i == |script| { return; }
      if !script[i].ok {
        l, i := l.(pc := Ending(false)), i + 1;
        assert Reaches(op, old(Now()), was, start, l, i, script);
        return;
      }
      i, l := MakeTarget(op, l, script, i);
      if l.path.Green? {
        i, ok, l := SealAndRelease(op, l, script, i);
      } else {
        i, ok, l := MovePayload(op, l, script, i);
      }
    }

    method MakeTarget(ghost op: Op, was: Local, script: seq<Choice>, start: nat) returns (i: nat, l: Local)
      requires start < |script| && was.pc == MakeDir && script[start].ok
      modifies this`greenDir
      ensures Reaches(op, old(Now()), was, start, l, i, script)
      ensures l == was.(pc := if was.path.Green? then Seal else TargetExists)
    {
      greenDir := true;
      i, l := start + 1, was.(pc := if was.path.Green? then Seal else TargetExists);
    }

    /** Move the payload unless an earlier attempt has; a recovered target is hashed again. */
    method MovePayload(ghost op: Op, was: Local, script: seq<Choice>, start: nat)
      returns (i: nat, ok: bool, l: Local)
      requires start <= |script| && was.pc == TargetExists
      modifies this`row, this`iso, this`greenDir, this`green, this`log, this`dropped
      ensures Reaches(op, old(Now()), was, start, l, i, script)
      ensures i == |script| || l.pc == Ending(ok)
      ensures ok ==> row.state.ReleasedToGreen?
      ensures row.actor == old(row.actor)
      ensures ok || row.state == old(row.state) || row.state.Expired?
    {
      var ready;
      ok := false;
      i, ready, l := BringToGreen(op, was, script, start);
      if i == |script| { return; }
      if ready {
        i, ok, l := SavePathAndRelease(op, l, script, i);
      } else {
        i, l := AbandonMove(op, l, script, i);
      }
    }

    method BringToGreen(ghost op: Op, was: Local, script: seq<Choice>, start: nat)
      returns (i: nat, ready: bool, l: Local)
      requires start <= |script| && was.pc == TargetExists
      modifies this`iso, this`green
      ensures Reaches(op, old(Now()), was, start, l, i, script)
      ensures i == |script| || l == was.(pc := if ready then SavePath else FailedMove)
    {
      i, ready, l := start, false, was;
      if i == |script| { return; }
      var raised, moved := !script[i].ok, green.Some?;
      l, i := l.(pc := if raised then FailedMove else if moved then SourceGone else MoveFile), i + 1;
      assert Reaches(op, old(Now()), was, start, l, i, script);
      if !raised {
        if moved {
          i, ready, l := CheckRecovered(op, l, script, i);
        } else {
          i, ready, l := MoveToGreen(op, l, script, i);
        }
      }
    }

    method MoveToGreen(ghost op: Op, was: Local, script: seq<Choice>, start: nat)
      returns (i: nat, ready: bool, l: Local)
      requires start <= |script| && was.pc == MoveFile
      modifies this`iso, this`green
      ensures Reaches(op, old(Now()), was, start, l, i, script)
      ensures i == |script| || l == was.(pc := if ready then SavePath else FailedMove)
    {
      i, ready, l := start, false, was;
      if i == |script| { return; }
      ready := script[i].ok && iso.Some? && greenDir;
      if ready {
        green, iso := iso, None;
      }
      l, i := l.(pc := if ready then SavePath else FailedMove), i + 1;
      assert Reaches(op, old(Now()), was, start, l, i, script);
    }

    method CheckRecovered(ghost op: Op, was: Local, script: seq<Choice>, start: nat)
      returns (i: nat, ready: bool, l: Local)
      requires start <= |script| && was.pc == SourceGone
      ensures Reaches(op, Now(), was, start, l, i, script)
      ensures i == |script| || l == was.(pc := if ready then SavePath else FailedMove)
    {
      i, ready, l := start, false, was;
      if i == |script| { return; }
      if !script[i].ok || iso.Some? {
        l, i := l.(pc := FailedMove), i + 1;
        assert Reaches(op, Now(), was, start, l, i, script);
        return;
      }
      l, i := l.(pc := VerifyTarget), i + 1;
      assert Reaches(op, Now(), was, start, l, i, script);
      if i == |script| { return; }
      Onward(sha, Now(), op, l, script, i);
      ready := script[i].ok && Matches(sha, row, green);
      l, i := l.(pc := if ready then SavePath else FailedMove), i + 1;
      assert Reaches(op, Now(), was, start, l, i, script);
    }

    method AbandonMove(ghost op: Op, was: Local, script: seq<Choice>, start: nat) returns (i: nat, l: Local)
      requires start <= |script| && was.pc == FailedMove
      modifies this`green, this`greenDir, this`dropped
      ensures Reaches(op, old(Now()), was, start, l, i, script)
      ensures i == |script| || l.pc == Ending(false)
    {
      i, l := start, was;
      if i == |script| { return; }
      var keep := !script[i].ok || green.Some?;
      l, i := l.(pc := if keep then Ending(false) else DropDir), i + 1;
      assert Reaches(op, old(Now()), was, start, l, i, script);
      if keep || i == |script| { return; }
      i, l := RemoveTarget(op, l, script, i);
    }

    method RemoveTarget(ghost op: Op, was: Local, script: seq<Choice>, start: nat) returns (i: nat, l: Local)
      requires start < |script| && was.pc == DropDir
      modifies this`green, this`greenDir, this`dropped
      ensures Reaches(op, old(Now()), was, start, l, i, script) && l.pc == Ending(false)
    {
      dropped := dropped || green.Some?;
      green, greenDir := None, false;
      i, l := start + 1, was.(pc := Ending(false));
    }

    method SavePathAndRelease(ghost op: Op, was: Local, script: seq<Choice>, start: nat)
      returns (i: nat, ok: bool, l: Local)
      requires start <= |script| && was.pc == SavePath
      modifies this`row, this`iso, this`greenDir, this`green, this`log, this`dropped
      ensures Reaches(op, old(Now()), was, start, l, i, script)
      ensures i == |script| || l.pc == Ending(ok)
      ensures ok ==> row.state.ReleasedToGreen?
      ensures row.actor == old(row.actor)
      ensures ok || row.state == old(row.state) || row.state.Expired?
    {
      i, ok, l := start, false, was;
      if i == |script| { return; }
      if !script[i].ok {
        l, i := l.(pc := Ending(false)), i + 1;
        assert Reaches(op, old(Now()), was, start, l, i, script);
        return;
      }
      i, l := SavePlace(op, l, script, i);
      i, ok, l := DropSourceAndRelease(op, l, script, i);
    }

    method SavePlace(ghost op: Op, was: Local, script: seq<Choice>, start: nat) returns (i: nat, l: Local)
      requires start < |script| && was.pc == SavePath && script[start].ok
      modifies this`row
      ensures Reaches(op, old(Now()), was, start, l, i, script)
      ensures l == was.(pc := DropSource) && row.actor == old(row.actor)
      ensures row.state == old(row.state)
    {
      if row.state.Approved? {
        row := row.(place := Green);
      }
      i, l := start + 1, was.(pc := DropSource);
    }

    method DropSourceAndRelease(ghost op: Op, was: Local, script: seq<Choice>, start: nat)
      returns (i: nat, ok: bool, l: Local)
      requires start <= |script| && was.pc == DropSource
      modifies this`row, this`iso, this`greenDir, this`green, this`log, this`dropped
      ensures Reaches(op, old(Now()), was, start, l, i, script)
      ensures i == |script| || l.pc == Ending(ok)
      ensures ok ==> row.state.ReleasedToGreen?
      ensures row.actor == old(row.actor)
      ensures ok || row.state == old(row.state) || row.state.Expired?
    {
      i, ok, l := start, false, was;
      if i == |script| { return; }
      iso := None;
      l, i := l.(pc := Seal), i + 1;
      assert Reaches(op, old(Now()), was, start, l, i, script);
      i, ok, l := SealAndRelease(op, l, script, i);
    }

    method SealAndRelease(ghost op: Op, was: Local, script: seq<Choice>, start: nat)
      returns (i: nat, ok: bool, l: Local)
      requires start <= |script| && was.pc == Seal
      modifies this`row, this`iso, this`greenDir, this`green, this`log, this`dropped
      ensures Reaches(op, old(Now()), was, start, l, i, script)
      ensures i == |script| || l.pc == Ending(ok)
      ensures ok ==> row.state.ReleasedToGreen?
      ensures row.actor == old(row.actor)
      ensures ok || row.state == old(row.state) || row.state.Expired?
    {
      ok := false;
      var present;
      i, present, l := SealPayload(op, was, script, start);
      if i < |script| && present {
        i, ok, l := ReleaseSealed(op, l, script, i);
      }
    }

    method ReleaseSealed(ghost op: Op, was: Local, script: seq<Choice>, start: nat)
      returns (i: nat, ok: bool, l: Local)
      requires start <= |script| && was.pc == Reading(TO_GREEN)
      modifies this`row, this`log
      ensures Reaches(op, old(Now()), was, start, l, i, script)
      ensures i == |script| || l.pc == Ending(ok)
      ensures ok ==> row.state.ReleasedToGreen?
      ensures row.actor == old(row.actor)
      ensures ok || row.state == old(row.state) || row.state.Expired?
    {
      i, ok, l := Transition(TO_GREEN, op, was, script, start);
    }

    method SealPayload(ghost op: Op, was: Local, script: seq<Choice>, start: nat)
      returns (i: nat, present: bool, l: Local)
      requires start <= |script| && was.pc == Seal
      modifies this`green
      ensures Reaches(op, old(Now()), was, start, l, i, script)
      ensures i == |script| || l == was.(pc := if present then Reading(TO_GREEN) else Ending(false))
    {
      i, present, l := start, green.Some?, was;
      if i == |script| { return; }
      present := present && script[i].ok;
      if present {
        green := Some(green.value.(sealed := true));
      }
      l, i := l.(pc := if present then Reading(TO_GREEN) else Ending(false)), i + 1;
      assert Reaches(op, old(Now()), was, start, l, i, script);
    }

    /**
     `decide_outbound`: a local approver decides. When it succeeds the transfer is released, or rejected, in that
     approver's name; a transfer that is not waiting for approval, or not for a local one, stays as it is. Undisturbed,
     it succeeds exactly on a transfer the policy in force permits, in time, and an approval with the recorded payload
     under an accepted runtime only; in every case the whole transfer afterwards is given.
     */
    method DecideOutbound(approve: bool, name: Name, script: seq<Choice>) returns (ok: bool)
      requires Valid()
      modifies this`row, this`iso, this`greenDir, this`green, this`log, this`dropped
      ensures Now() == Alone(sha, old(Now()), Decide(approve, name), BEGIN, script, 0).0
      ensures Valid() && old(log) <= log
      ensures ok ==> row.actor == Some(Approver(name)) && if approve then row.state.ReleasedToGreen? && row.place.Green?
                                                           else row.state.ApprovalRejected?
      ensures ok ==> old(row.state.PendingApproval? && Permits(policy, row))
      ensures !old(row.state.PendingApproval? && row.provider.LocalApproval?) ==> Now() == old(Now())
      ensures OutboundOutcome.Undisturbed(script) && old(row.provider.LocalApproval?) ==>
                && OutboundOutcome.DecisionEnds(sha, old(Now()), Approver(name), approve, script[1].expired, Now())
                && (ok <==> OutboundOutcome.Succeeds(sha, old(Now()), approve, script[1].expired))
    {
      ghost var was, op := Now(), Decide(approve, name);
      CallKeeps(sha, was, submitted, op, script);
      if OutboundOutcome.Undisturbed(script) {
        OutboundOutcome.DecideOutcome(sha, was, approve, name, script);
      }
      ok := EnterDecision(approve, name, script);
    }

    method EnterDecision(approve: bool, name: Name, script: seq<Choice>) returns (ok: bool)
      modifies this`row, this`iso, this`greenDir, this`green, this`log, this`dropped
      ensures Now() == Alone(sha, old(Now()), Decide(approve, name), BEGIN, script, 0).0
      ensures ok ==> row.actor == Some(Approver(name)) && if approve then row.state.ReleasedToGreen?
                                                           else row.state.ApprovalRejected?
      ensures ok ==> old(row.state.PendingApproval? && Permits(policy, row))
      ensures !old(row.state.PendingApproval? && row.provider.LocalApproval?) ==> Now() == old(Now())
      ensures ok || row.state == old(row.state) || row.state.Expired? || row.state.Approved?
    {
      var op, i, l := Decide(approve, name), 0, BEGIN;
      ok := false;
      if i == |script| { return; }
      var local := script[i].ok && row.provider.LocalApproval?;
      l, i := l.(pc := if local then Deciding else Gone), i + 1;
      assert Reaches(op, old(Now()), BEGIN, 0, l, i, script);
      if local {
        i, ok, l := ApplyOutboundDecision(op, l, script, i);
      }
      EndOfCall(sha, Now(), op, l, script, i);
    }

    /** `_apply_outbound_decision`. */
    method ApplyOutboundDecision(op: Op, was: Local, script: seq<Choice>, start: nat)
      returns (i: nat, ok: bool, l: Local)
      requires start <= |script| && was.pc == Deciding && DecidingActor(op).Some?
      modifies this`row, this`iso, this`greenDir, this`green, this`log, this`dropped
      ensures Reaches(op, old(Now()), was, start, l, i, script)
      ensures i == |script| || l.pc == Ending(ok)
      ensures ok ==> row.actor == DecidingActor(op) && if Approves(op) then row.state.ReleasedToGreen?
                                                      else row.state.ApprovalRejected?
      ensures ok ==> old(row.state.PendingApproval? && Permits(policy, row))
      ensures !old(row.state.PendingApproval?) ==> Now() == old(Now())
      ensures ok || row.state == old(row.state) || row.state.Expired? || row.state.Approved?
    {
      i, ok, l := start, false, was;
      if i == |script| { return; }
      if !script[i].ok {
        l, i := l.(pc := Ending(false)), i + 1;
        assert Reaches(op, old(Now()), was, start, l, i, script);
        return;
      }
      l := l.(path := row.place);
      if !row.state.PendingApproval? || !Permits(policy, row) {
        l, i := l.(pc := Ending(false)), i + 1;
        assert Reaches(op, old(Now()), was, start, l, i, script);
        return;
      }
      if script[i].expired || !Approves(op) {
        i, ok, l := RejectOrExpire(op, was, script, start);
        return;
      }
      l, i := l.(pc := VerifyForApproval), i + 1;
      assert Reaches(op, old(Now()), was, start, l, i, script);
      i, ok, l := VerifyAndApprove(op, l, script, i);
    }

    method RejectOrExpire(op: Op, was: Local, script: seq<Choice>, start: nat)
      returns (i: nat, ok: bool, l: Local)
      requires start < |script| && was.pc == Deciding && (script[start].expired || !Approves(op))
      requires script[start].ok
      requires row.state.PendingApproval? && Permits(policy, row) && DecidingActor(op).Some?
      modifies this`row, this`iso, this`greenDir, this`green, this`log, this`dropped
      ensures Reaches(op, old(Now()), was, start, l, i, script)
      ensures i == |script| || l.pc == Ending(ok)
      ensures ok ==> row.actor == DecidingActor(op) && row.state.ApprovalRejected? && !Approves(op)
      ensures ok || row.state == old(row.state) || row.state.Expired?
    {
      var m := if script[start].expired then To(Expired, ToEnd(false), ToEnd(false))
               else To(ApprovalRejected, ToEnd(true), ToEnd(false)).(actor := DecidingActor(op));
      Onward(sha, Now(), op, was, script, start);
      i, ok, l := CarryOut(op, m, was.(path := row.place, pc := Reading(m)), script, start + 1);
    }

    /** A transition that ends the call. */
    method CarryOut(op: Op, m: Move, was: Local, script: seq<Choice>, start: nat)
      returns (i: nat, ok: bool, l: Local)
      requires start <= |script| && was.pc == Reading(m) && m.fail == ToEnd(false) && m.next.ToEnd?
      modifies this`row, this`log
      ensures Reaches(op, old(Now()), was, start, l, i, script)
      ensures i == |script| || l.pc == Ending(ok)
      ensures ok ==> m.next.ok && row.state == m.to && (m.actor.Some? ==> row.actor == m.actor)
      ensures ok || row.state == old(row.state) || (row.state == m.to && !m.next.ok)
    {
      var moved;
      i, moved, l := Transition(m, op, was, script, start);
      ok := moved && m.next.ok;
    }

    /** Hash the payload, persist the approval, and only then cross the filesystem boundary. */
    method VerifyAndApprove(op: Op, was: Local, script: seq<Choice>, start: nat)
      returns (i: nat, ok: bool, l: Local)
      requires start <= |script| && was.pc == VerifyForApproval && DecidingActor(op).Some?
      modifies this`row, this`iso, this`greenDir, this`green, this`log, this`dropped
      ensures Reaches(op, old(Now()), was, start, l, i, script)
      ensures i == |script| || l.pc == Ending(ok)
      ensures ok ==> row.actor == DecidingActor(op) && row.state.ReleasedToGreen?
      ensures ok || row.state == old(row.state) || row.state.Expired? || row.state.Approved?
    {
      i, ok, l := start, false, was;
      if i == |script| { return; }
      if !script[i].ok {
        l, i := l.(pc := Ending(false)), i + 1;
        assert Reaches(op, old(Now()), was, start, l, i, script);
        return;
      }
      var intact := IntactAt(l.path);
      var m := (if intact then To(Approved, ToRelease, ToEnd(false)) else To(Expired, ToEnd(false), ToEnd(false)))
               .(actor := DecidingActor(op));
      l, i := l.(pass := if intact then l.pass.(verified := true) else l.pass, pc := Reading(m)), i + 1;
      assert Reaches(op, old(Now()), was, start, l, i, script);
      i, ok, l := DecideAndRelease(op, m, l, script, i);
    }

    method DecideAndRelease(op: Op, m: Move, was: Local, script: seq<Choice>, start: nat)
      returns (i: nat, ok: bool, l: Local)
      requires start <= |script| && was.pc == Reading(m) && m.fail == ToEnd(false)
      requires (m.next == ToRelease || m.next == ToEnd(false)) && m.actor.Some? && (m.to.Approved? || m.to.Expired?)
      modifies this`row, this`iso, this`greenDir, this`green, this`log, this`dropped
      ensures Reaches(op, old(Now()), was, start, l, i, script)
      ensures i == |script| || l.pc == Ending(ok)
      ensures ok ==> row.actor == m.actor && row.state.ReleasedToGreen?
      ensures ok || row.state == old(row.state) || row.state.Expired? || row.state.Approved?
    {
      var moved;
      i, moved, l := Transition(m, op, was, script, start);
      ok := false;
      if i < |script| && moved && m.next.ToRelease? {
        i, ok, l := ReleaseApprovedOutbound(op, l, script, i);
      }
    }

    predicate IntactAt(place: Place)
      reads this
    {
      match place
      case Isolation => Matches(sha, row, iso)
      case Green => Matches(sha, row, green)
      case Purged => false
    }

    /**
     `handle_approval_callback`: timestamp and signature, then the nonce, then the relay event. A request that is not
     authentic, not in time, or reuses a nonce changes nothing; one that names another approval, that comes for a
     transfer with local approval, or that reuses an event identifier leaves the transfer as it is. Undisturbed, any
     other request that is not a duplicate ends as `CallbackEnds` says, and succeeds exactly when its event is
     recorded as processed.
     */
    method HandleApprovalCallback(r: Request, now: int, script: seq<Choice>) returns (ok: bool)
      requires Valid()
      modifies this`row, this`iso, this`greenDir, this`green, this`log, this`dropped, this`callbacks, this`nonces
      ensures Valid() && old(log) <= log
      ensures (nonces, Now()) == Handled(sha, skew, old(nonces), old(Now()), r, now, script)
      ensures !old(Admitted(skew, nonces, r, now)) ==> !ok && nonces == old(nonces) && Now() == old(Now())
      ensures !r.authentic || r.timestamp + skew < now || now + skew < r.timestamp
              || (r.nonce in old(nonces) && old(nonces)[r.nonce].payloadHash != r.payloadHash) ==>
                !ok && nonces == old(nonces) && Now() == old(Now())
      ensures r.authentic && now <= r.timestamp + skew && r.timestamp <= now + skew
              && (r.nonce in old(nonces) ==> old(nonces)[r.nonce].payloadHash == r.payloadHash) ==>
                && nonces == (if r.nonce in old(nonces) then old(nonces)
                              else old(nonces)[r.nonce := Bound(r.payloadHash, now + 2 * skew)])
                && Concluded(old(Now()), OpOf(r), script, ok)
      ensures old(row.approvalId != Some(r.approvalId) || !row.provider.WeCom?) ==> !ok && Now() == old(Now())
      ensures old(Conflicts(callbacks, OpOf(r))) ==> !ok && Now() == old(Now())
      ensures ok && !old(r.event in callbacks && callbacks[r.event].outcome.Processed?) ==>
                if r.decision then row.state.ReleasedToGreen? && (old(dropped) || row.place.Green?)
                else row.state.ApprovalRejected?
      ensures ok && !old(row.state.Approved? || (r.event in callbacks && callbacks[r.event].outcome.Processed?)) ==>
                row.actor == Some(Relay(r.user, r.event))
    {
      ghost var was := Now();
      CallKeeps(sha, was, submitted, OpOf(r), script);
      ok := AdmitRequest(r, now);
      if !ok { return; }
      ok := ProcessApprovalCallback(r.event, r.payloadHash, r.approvalId, r.decision, r.user, script);
    }

    /** What an undisturbed callback comes to that is for this transfer and not a duplicate. */
    ghost predicate Concluded(was: World, op: Op, script: seq<Choice>, ok: bool)
      requires op.Callback?
      reads this
    {
      var known := op.event in was.callbacks;
      var k := if known then 2 else 3;
      OutboundOutcome.Undisturbed(script) && !OutboundOutcome.Foreign(was, op)
      && !(known && was.callbacks[op.event].outcome.Processed?) ==>
        && OutboundOutcome.CallbackEnds(sha, was, op, script[k].expired,
                                        Alone(sha, was, Outbound.Release, RELEASING, script[k..], 0).0, Now())
        && (ok <==> Processes(op.event))
    }

    /** The nonce is bound to the first payload it comes with. */
    method AdmitRequest(r: Request, now: int) returns (ok: bool)
      modifies this`nonces
      ensures ok <==> Admitted(skew, old(nonces), r, now)
      ensures nonces == if ok then Bind(skew, old(nonces), r, now) else old(nonces)
    {
      if !r.authentic || now - r.timestamp > skew || r.timestamp - now > skew { return false; }
      if r.nonce in nonces && nonces[r.nonce].payloadHash != r.payloadHash { return false; }
      if r.nonce !in nonces {
        nonces := nonces[r.nonce := Bound(r.payloadHash, now + 2 * skew)];
      }
      ok := true;
    }

    /** The nonces whose rows have expired go. */
    method PurgeNonces(now: int)
      modifies this`nonces
      ensures nonces == Unexpired(old(nonces), now)
    {
      nonces := map n | n in nonces && nonces[n].expires > now :: nonces[n];
    }

    /** `process_approval_callback` for a relay event that names this transfer or another one. */
    method ProcessApprovalCallback(event: EventId, payloadHash: Digest, approvalId: string, decision: bool, user: Name,
                                   script: seq<Choice>)
      returns (ok: bool)
      modifies this`row, this`iso, this`greenDir, this`green, this`log, this`dropped, this`callbacks
      ensures Now() == Alone(sha, old(Now()), Callback(event, payloadHash, approvalId, decision, user), BEGIN,
                             script, 0).0
      ensures old(event in callbacks &&
                  (callbacks[event].payloadHash != payloadHash || callbacks[event].outcome.Processed?)) ==>
                Now() == old(Now())
      ensures old(event in callbacks && callbacks[event].payloadHash != payloadHash) ==> !ok
      ensures old(row.approvalId != Some(approvalId) || !row.provider.WeCom?) ==> !ok && Now() == old(Now())
      ensures old(WorldOk(Now())) ==>
                Concluded(old(Now()), Callback(event, payloadHash, approvalId, decision, user), script, ok)
      ensures ok && !old(event in callbacks && callbacks[event].outcome.Processed?) ==>
                && (if decision then row.state.ReleasedToGreen? else row.state.ApprovalRejected?)
                && (!old(row.state.Approved?) ==> row.actor == Some(Relay(user, event)))
    {
      var op := Callback(event, payloadHash, approvalId, decision, user);
      ok := false;
      if |script| == 0 { return; }
      if OutboundOutcome.Undisturbed(script) && WorldOk(Now()) {
        OutboundOutcome.CallbackOutcome(sha, Now(), op, script);
      }
      var known := event in callbacks;
      var refused := (known && callbacks[event].payloadHash != payloadHash) ||
                     row.approvalId != Some(approvalId) || !row.provider.WeCom?;
      var duplicate := known && callbacks[event].outcome.Processed?;
      if !script[0].ok || refused || duplicate {
        RefusedAlone(sha, Now(), op, script);
        return script[0].ok && !refused;
      }
      AcceptedAlone(sha, Now(), op, script);
      ok := RecordAndFinish(op, script);
    }

    predicate Processes(event: EventId)
      reads this
    {
      event in callbacks && callbacks[event].outcome.Processed?
    }

    method RecordAndFinish(op: Op, script: seq<Choice>) returns (ok: bool)
      requires op.Callback? && |script| >= 1 && !Processes(op.event)
      modifies this`row, this`iso, this`greenDir, this`green, this`log, this`dropped, this`callbacks
      ensures Now() == Alone(sha, old(Now()), op, Accepted(old(op.event in callbacks)), script, 1).0
      ensures ok ==> if op.decision then row.state.ReleasedToGreen? else row.state.ApprovalRejected?
      ensures ok && !old(row.state.Approved?) ==> row.actor == DecidingActor(op)
      ensures ok <==> Processes(op.event)
    {
      var known := op.event in callbacks;
      var i, l := 1, Accepted(known);
      ok := false;
      if !known {
        i, l := RecordCallback(op, l, script, i);
        if i == |script| || l.pc.Gone? { return; }
      }
      i, ok, l := FinishCallback(op, l, script, i);
    }

    method RecordCallback(op: Op, was: Local, script: seq<Choice>, start: nat) returns (i: nat, l: Local)
      requires start <= |script| && was.pc == Recording && op.Callback? && op.event !in callbacks
      modifies this`callbacks
      ensures Reaches(op, old(Now()), was, start, l, i, script)
      ensures i == |script| || l == was.(pc := if script[start].ok then Dispatch else Gone)
      ensures start == |script| || i == start + 1
      ensures !Processes(op.event) && (start < |script| && script[start].ok ==> op.event in callbacks)
    {
      i, l := start, was;
      if i == |script| { return; }
      var recorded := script[i].ok;
      if recorded {
        callbacks := callbacks[op.event := CallbackRow(op.payloadHash, Processing)];
      }
      l, i := l.(pc := if recorded then Dispatch else Gone), i + 1;
      assert Reaches(op, old(Now()), was, start, l, i, script);
    }

    /** Dispatch on the current state and record how it went. */
    method FinishCallback(op: Op, was: Local, script: seq<Choice>, start: nat) returns (i: nat, ok: bool, l: Local)
      requires start <= |script| && was.pc == Dispatch && op.Callback?
      requires op.event in callbacks && !Processes(op.event)
      modifies this`row, this`iso, this`greenDir, this`green, this`log, this`dropped, this`callbacks
      ensures Reaches(op, old(Now()), was, start, l, i, script)
      ensures i == |script| || l.pc.Gone?
      ensures ok ==> if op.decision then row.state.ReleasedToGreen? else row.state.ApprovalRejected?
      ensures ok && !old(row.state.Approved?) ==> row.actor == DecidingActor(op)
      ensures ok <==> Processes(op.event)
    {
      i, ok, l := start, false, was;
      if i == |script| { return; }
      i, ok, l := DispatchCallback(op, l, script, i);
      if i == |script| { return i, false, l; }
      i, ok, l := RecordOutcome(op, ok, l, script, i);
    }

    /** A success whose record raises is recorded as an error; an error whose record raises is not recorded. */
    method RecordOutcome(op: Op, good: bool, was: Local, script: seq<Choice>, start: nat)
      returns (i: nat, ok: bool, l: Local)
      requires start < |script| && was.pc == Ending(good) && op.Callback?
      requires op.event in callbacks && !Processes(op.event)
      modifies this`callbacks
      ensures Reaches(op, old(Now()), was, start, l, i, script)
      ensures (i == |script| || l.pc.Gone?) && (ok ==> good) && (ok <==> Processes(op.event))
    {
      i, ok, l := start, good, was;
      if !script[i].ok && ok {
        ok := false;
        l, i := l.(pc := Ending(false)), i + 1;
        assert Reaches(op, old(Now()), was, start, l, i, script);
        if i == |script| { return; }
      }
      i, l := SetRow(op, ok, l, script, i);
    }

    method SetRow(op: Op, ok: bool, was: Local, script: seq<Choice>, start: nat) returns (i: nat, l: Local)
      requires start < |script| && was.pc == Ending(ok) && op.Callback? && (ok ==> script[start].ok)
      requires op.event in callbacks && !Processes(op.event)
      modifies this`callbacks
      ensures Reaches(op, old(Now()), was, start, l, i, script) && l.pc.Gone? && (ok <==> Processes(op.event))
    {
      if script[start].ok && op.event in callbacks {
        callbacks := callbacks[op.event := callbacks[op.event].(outcome := if ok then Processed else Errored)];
      }
      i, l := start + 1, was.(pc := Gone);
    }

    method DispatchCallback(op: Op, was: Local, script: seq<Choice>, start: nat)
      returns (i: nat, ok: bool, l: Local)
      requires start < |script| && was.pc == Dispatch && op.Callback?
      modifies this`row, this`iso, this`greenDir, this`green, this`log, this`dropped
      ensures Reaches(op, old(Now()), was, start, l, i, script)
      ensures i == |script| || l.pc == Ending(ok)
      ensures ok ==> if op.decision then row.state.ReleasedToGreen? else row.state.ApprovalRejected?
      ensures ok && !old(row.state.Approved?) ==> row.actor == DecidingActor(op)
    {
      i, ok, l := start, false, was;
      if !script[i].ok {
        l, i := l.(pc := Ending(false)), i + 1;
        assert Reaches(op, old(Now()), was, start, l, i, script);
        return;
      }
      if row.state.Approved? && op.decision {
        l, i := l.(pc := ReleaseRead), i + 1;
        assert Reaches(op, old(Now()), was, start, l, i, script);
        i, ok, l := ReleaseApprovedOutbound(op, l, script, i);
      } else if (row.state.ReleasedToGreen? && op.decision) || (row.state.ApprovalRejected? && !op.decision) {
        ok := row.actor == DecidingActor(op);
        l, i := l.(pc := Ending(ok)), i + 1;
        assert Reaches(op, old(Now()), was, start, l, i, script);
      } else {
        l, i := l.(pc := Deciding), i + 1;
        assert Reaches(op, old(Now()), was, start, l, i, script);
        i, ok, l := ApplyOutboundDecision(op, l, script, i);
      }
    }

    /**
     `scan_outbound`: one delivery of the scan job. It touches only a pending transfer, and none waits for approval
     without a clean pass. Undisturbed, it submits exactly what the runtime, the integrity check, the scanners, the
     type check, the classifier and the policy let through, and quarantines the rest.
     */
    method ScanOutbound(script: seq<Choice>) returns (i: nat, l: Local)
      requires Valid()
      modifies this`row, this`log
      ensures (Now(), l) == Alone(sha, old(Now()), Scan, BEGIN, script, 0)
      ensures Valid() && old(log) <= log
      ensures !old(row.state.PendingScan?) ==> Now() == old(Now())
      ensures row.state.PendingApproval? ==>
                && |log| >= 4 && log[|log| - 2].Changed? && log[|log| - 2].to.Classified?
                && CleanPass(log[|log| - 2].pass) && !row.typeConflict
      ensures old(row.state.PendingScan?) && OutboundScan.Obliging(script) ==>
                OutboundScan.ScanEnds(sha, old(Now()), script[4].statuses, script[6].category, script[9].approvalId,
                                      Now())
    {
      ghost var was := Now();
      AloneKeeps(sha, was, Scan, BEGIN, script, 0);
      AloneMovesBytes(sha, was, Scan, BEGIN, script, 0, submitted);
      if !row.state.PendingScan? {
        OutboundScan.UnscannedAlone(sha, was, script);
      } else if OutboundScan.Obliging(script) {
        OutboundScan.ScanOutcome(sha, was, script);
      }
      i, l := StartScan(script);
      if row.state.PendingApproval? {
        OutboundScan.SubmittedClean(Now());
      }
    }

    method StartScan(script: seq<Choice>) returns (i: nat, l: Local)
      modifies this`row, this`log
      ensures (Now(), l) == Alone(sha, old(Now()), Scan, BEGIN, script, 0)
    {
      i, l := 0, BEGIN;
      if i == |script| { return; }
      var m := To(Scanning, ToFirstCheck, ToEnd(false));
      l, i := l.(pc := if script[i].ok then Reading(m) else Gone), i + 1;
      assert Reaches(Scan, old(Now()), BEGIN, 0, l, i, script);
      if l.pc.Gone? { return; }
      i, l := ClaimAndScan(m, l, script, i);
      i, l := EndScan(l, script, i);
    }

    method ClaimAndScan(m: Move, was: Local, script: seq<Choice>, start: nat) returns (i: nat, l: Local)
      requires start <= |script| && was.pc == Reading(m) && m.next == ToFirstCheck && m.fail == ToEnd(false)
      modifies this`row, this`log
      ensures Reaches(Scan, old(Now()), was, start, l, i, script)
      ensures i == |script| || l.pc.Ending?
    {
      var moved;
      i, moved, l := Transition(m, Scan, was, script, start);
      if i < |script| && moved {
        i, l := CheckAndScan(l, script, i);
      }
    }

    method EndScan(was: Local, script: seq<Choice>, start: nat) returns (i: nat, l: Local)
      requires start <= |script| && (start == |script| || was.pc.Ending?)
      ensures Reaches(Scan, Now(), was, start, l, i, script)
      ensures i == |script| || l.pc.Gone?
    {
      i, l := start, was;
      if i < |script| {
        l, i := l.(pc := Gone), i + 1;
      }
    }

    /** A negative result: quarantine; a lost race or any exception ends in the fail-closed handler. */
    method QuarantineScan(m: Move, was: Local, script: seq<Choice>, start: nat) returns (i: nat, l: Local)
      requires start <= |script| && was.pc == Reading(m) && m.next == ToEnd(false) && m.fail == ToFailing
      modifies this`row, this`log
      ensures Reaches(Scan, old(Now()), was, start, l, i, script)
      ensures i == |script| || l.pc.Ending?
    {
      var moved;
      i, moved, l := Transition(m, Scan, was, script, start);
      if i == |script| || moved { return; }
      i, l := FailScan(l, script, i);
    }

    method FailScan(was: Local, script: seq<Choice>, start: nat) returns (i: nat, l: Local)
      requires start <= |script| && was.pc == Failing
      modifies this`row, this`log
      ensures Reaches(Scan, old(Now()), was, start, l, i, script)
      ensures i == |script| || l.pc.Ending?
    {
      i, l := start, was;
      if i == |script| { return; }
      if script[i].ok && (row.state.Scanning? || row.state.Classified?) {
        var m := To(Quarantined, ToEnd(false), ToEnd(false));
        l, i := l.(pc := Reading(m)), i + 1;
        assert Reaches(Scan, old(Now()), was, start, l, i, script);
        var moved;
        i, moved, l := Transition(m, Scan, l, script, i);
      } else {
        l, i := l.(pc := Ending(false)), i + 1;
        assert Reaches(Scan, old(Now()), was, start, l, i, script);
      }
    }

    /** The step raises: the pass fails closed. */
    method Catch(was: Local, script: seq<Choice>, start: nat) returns (i: nat, l: Local)
      requires start < |script| && Raises(was, script[start]) && Raised(Scan, was).pc == Failing
      modifies this`row, this`log
      ensures Reaches(Scan, old(Now()), was, start, l, i, script)
      ensures i == |script| || l.pc.Ending?
    {
      i, l := start + 1, was.(pc := Failing);
      assert Reaches(Scan, old(Now()), was, start, l, i, script);
      i, l := FailScan(l, script, i);
    }

    method CheckAndScan(was: Local, script: seq<Choice>, start: nat) returns (i: nat, l: Local)
      requires start <= |script| && was.pc == FirstCheck
      modifies this`row, this`log
      ensures Reaches(Scan, old(Now()), was, start, l, i, script)
      ensures i == |script| || l.pc.Ending?
    {
      i, l := start, was;
      if i == |script| { return; }
      if !script[i].ok {
        i, l := Catch(l, script, i);
        return;
      }
      l := l.(path := row.place);
      if !runtime || !IntactAt(l.path) {
        l, i := Quarantine(l), i + 1;
        assert Reaches(Scan, old(Now()), was, start, l, i, script);
        i, l := QuarantineScan(l.pc.m, l, script, i);
      } else {
        l, i := l.(pass := NO_PASS.(first := true), pc := RunScanners), i + 1;
        assert Reaches(Scan, old(Now()), was, start, l, i, script);
        i, l := ScanAndRecheck(l, script, i);
      }
    }

    method ScanAndRecheck(was: Local, script: seq<Choice>, start: nat) returns (i: nat, l: Local)
      requires start <= |script| && was.pc == RunScanners
      modifies this`row, this`log
      ensures Reaches(Scan, old(Now()), was, start, l, i, script)
      ensures i == |script| || l.pc.Ending?
    {
      i, l := start, was;
      if i == |script| { return; }
      if !script[i].ok {
        i, l := Catch(l, script, i);
      } else if !AllClean(script[i].statuses) || row.typeConflict {
        l, i := Quarantine(l), i + 1;
        assert Reaches(Scan, old(Now()), was, start, l, i, script);
        i, l := QuarantineScan(l.pc.m, l, script, i);
      } else {
        l, i := l.(pass := l.pass.(statuses := Some(script[i].statuses)), pc := SecondCheck), i + 1;
        assert Reaches(Scan, old(Now()), was, start, l, i, script);
        i, l := RecheckAndClassify(l, script, i);
      }
    }

    method RecheckAndClassify(was: Local, script: seq<Choice>, start: nat) returns (i: nat, l: Local)
      requires start <= |script| && was.pc == SecondCheck
      modifies this`row, this`log
      ensures Reaches(Scan, old(Now()), was, start, l, i, script)
      ensures i == |script| || l.pc.Ending?
    {
      i, l := start, was;
      if i == |script| { return; }
      if !script[i].ok {
        i, l := Catch(l, script, i);
        return;
      }
      if !IntactAt(l.path) {
        l, i := Quarantine(l), i + 1;
        assert Reaches(Scan, old(Now()), was, start, l, i, script);
        i, l := QuarantineScan(l.pc.m, l, script, i);
      } else {
        l, i := l.(pass := l.pass.(second := true), pc := Classify), i + 1;
        assert Reaches(Scan, old(Now()), was, start, l, i, script);
        i, l := ClassifyPayload(l, script, i);
      }
    }

    method ClassifyPayload(was: Local, script: seq<Choice>, start: nat) returns (i: nat, l: Local)
      requires start <= |script| && was.pc == Classify
      modifies this`row, this`log
      ensures Reaches(Scan, old(Now()), was, start, l, i, script)
      ensures i == |script| || l.pc.Ending?
    {
      i, l := start, was;
      if i == |script| { return; }
      var category := script[i].category;
      if !script[i].ok {
        i, l := Catch(l, script, i);
      } else if !policy.enabled || category.None? || category.value !in policy.allowed {
        var m := To(Quarantined, ToEnd(false), ToFailing).(category := category);
        l, i := l.(pc := Reading(m)), i + 1;
        assert Reaches(Scan, old(Now()), was, start, l, i, script);
        i, l := QuarantineScan(m, l, script, i);
      } else {
        var m := To(Classified, ToSubmit, ToFailing).(category := category);
        l, i := l.(pass := l.pass.(allowed := true), pc := Reading(m)), i + 1;
        assert Reaches(Scan, old(Now()), was, start, l, i, script);
        i, l := SubmitForApproval(m, l, script, i);
      }
    }

    method SubmitForApproval(classified: Move, was: Local, script: seq<Choice>, start: nat) returns (i: nat, l: Local)
      requires start <= |script| && was.pc == Reading(classified)
      requires classified.next == ToSubmit && classified.fail == ToFailing
      modifies this`row, this`log
      ensures Reaches(Scan, old(Now()), was, start, l, i, script)
      ensures i == |script| || l.pc.Ending?
    {
      var moved;
      i, moved, l := Transition(classified, Scan, was, script, start);
      if i == |script| { return; }
      if moved {
        i, l := Submit(l, script, i);
      } else {
        i, l := FailScan(l, script, i);
      }
    }

    method Submit(was: Local, script: seq<Choice>, start: nat) returns (i: nat, l: Local)
      requires start < |script| && was.pc == Outbound.Submit
      modifies this`row, this`log
      ensures Reaches(Scan, old(Now()), was, start, l, i, script)
      ensures i == |script| || l.pc.Ending?
    {
      if !script[start].ok {
        i, l := Catch(was, script, start);
        return;
      }
      var m := To(PendingApproval, ToEnd(true), ToFailing).(approvalId := Some(script[start].approvalId));
      i, l := start + 1, was.(pc := Reading(m));
      assert Reaches(Scan, old(Now()), was, start, l, i, script);
      var moved;
      i, moved, l := Transition(m, Scan, l, script, i);
      if i == |script| || moved { return; }
      i, l := FailScan(l, script, i);
    }
  }

  lemma {:induction false} EndOfCall(sha: Hash, w: World, op: Op, l: Local, script: seq<Choice>, i: nat)
    requires !op.Callback? && (i == |script| || l.pc.Ending? || l.pc.Gone?)
    ensures Alone(sha, w, op, l, script, i).0 == w
  {
    if i < |script| && l.pc.Ending? {
      assert Alone(sha, w, op, l, script, i) == Alone(sha, w, op, l.(pc := Gone), script, i + 1);
    }
  }

  /** Where a callback goes on that is neither refused nor a duplicate. */
  function Accepted(known: bool): Local {
    BEGIN.(pc := if known then Dispatch else Recording)
  }

  lemma {:induction false} AcceptedAlone(sha: Hash, w: World, op: Op, script: seq<Choice>)
    requires op.Callback? && |script| >= 1 && script[0].ok && StartOf(w, op, BEGIN) == Accepted(op.event in w.callbacks)
    ensures Alone(sha, w, op, BEGIN, script, 0) == Alone(sha, w, op, Accepted(op.event in w.callbacks), script, 1)
  {
  }

  lemma {:induction false} RefusedAlone(sha: Hash, w: World, op: Op, script: seq<Choice>)
    requires |script| >= 1 && (!script[0].ok || StartOf(w, op, BEGIN).pc.Gone?)
    ensures Alone(sha, w, op, BEGIN, script, 0).0 == w
  {
    var l := if script[0].ok then StartOf(w, op, BEGIN) else BEGIN.(pc := Gone);
    assert Alone(sha, w, op, BEGIN, script, 0) == Alone(sha, w, op, l, script, 1);
  }

  lemma {:induction false} CallKeeps(sha: Hash, w: World, submitted: Bytes, op: Op, script: seq<Choice>)
    requires Inv(sha, System(w, map[], submitted, true))
    ensures var w' := Alone(sha, w, op, BEGIN, script, 0).0;
            Inv(sha, System(w', map[], submitted, true)) && w.log <= w'.log && w'.dropped == w.dropped
  {
    AloneKeeps(sha, w, op, BEGIN, script, 0);
    AloneDropsNothing(sha, w, op, BEGIN, script, 0);
    AloneMovesBytes(sha, w, op, BEGIN, script, 0, submitted);
  }
}
