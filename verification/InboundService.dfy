/**
 The inbound operations as the service executes them, cut by a crash after any number of steps. Every method
 is proved to be one uninterleaved run of a thread of the machine in `Inbound`; the two operations the job
 queue calls state on top of that what they keep and what they achieve.
 */
module InboundService {
  import opened Basics
  import opened Inbound
  import opened InboundScan

  class Service {
    const sha: Hash
    ghost const submitted: Bytes
    var row: Row
    var iso: Option<File>
    var outDir: bool
    var out: Option<File>
    var log: seq<Entry>
    var runtime: bool

    constructor (sha: Hash, bytes: Bytes, typeKnown: bool, typeConflict: bool)
      ensures this.sha == sha && Now() == Submitted(sha, bytes, typeKnown, typeConflict).w
      ensures submitted == bytes && Valid()
    {
      this.sha, submitted := sha, bytes;
      row := Row(PendingScan, |bytes|, sha(bytes), typeKnown, typeConflict, Isolation);
      iso, outDir, out := Some(File(bytes, false)), false, None;
      log, runtime := [Registered], true;
    }

    ghost function Now(): World
      reads this
    {
      World(row, iso, outDir, out, log, runtime)
    }

    /** The store on its own, without running threads. */
    ghost function Stored(tampered: bool): System
      reads this
    {
      System(Now(), map[], submitted, tampered)
    }

    ghost predicate Valid()
      reads this
    {
      Inv(sha, Stored(true))
    }

    ghost predicate Reaches(op: Op, was: World, l: Local, start: nat, l': Local, i: nat, script: seq<Choice>)
      reads this
    {
      && start <= i <= |script|
      && Alone(sha, was, op, l, script, start) == Alone(sha, Now(), op, l', script, i)
    }

    predicate IntactAt(place: Place)
      reads this
    {
      match place
      case Isolation => Matches(sha, row, iso)
      case ReleasedDir => Matches(sha, row, out)
      case Purged => false
    }

    /** `transition`: read the state, then one guarded update together with its audit event. */
    method Transition(m: Move, ghost op: Op, was: Local, script: seq<Choice>, start: nat)
      returns (i: nat, l: Local)
      requires start <= |script|
      modifies this`row, this`log
      ensures Reaches(op, old(Now()), was.(pc := Reading(m)), start, l, i, script)
      ensures i == |script| || l == was.(pc := Resume(m.next)) || l == was.(pc := Resume(m.fail))
    {
      ghost var begin := was.(pc := Reading(m));
      i, l := start, was.(pc := Reading(m));
      if i == |script| { return; }
      var from := row.state;
      if !script[i].ok || !Allowed(from, m.to) {
        l, i := l.(pc := Resume(m.fail)), i + 1;
        assert Reaches(op, old(Now()), begin, start, l, i, script);
        return;
      }
      l, i := l.(pc := Swapping(from, m)), i + 1;
      assert Reaches(op, old(Now()), begin, start, l, i, script);
      if i == |script| { return; }
      Onward(sha, Now(), op, l, script, i);
      var moved := script[i].ok && row.state == from;
      if moved {
        row := row.(state := m.to);
        log := log + [Changed(from, m.to, l.pass)];
      }
      l, i := l.(pc := Resume(if moved then m.next else m.fail)), i + 1;
      assert Reaches(op, old(Now()), begin, start, l, i, script);
    }

    /**
     `scan_object`: one delivery of the scan job. It touches only a pending object, and releases it only behind
     a clean pass. Undisturbed it ends where the scanners' answers, the type, the payload and the runtime say: an
     infected verdict rejects, whatever else is not in order quarantines. With the submitted payload still in place a
     clean pass over a known, unconflicted object releases it exactly when the released directory does not exist yet.
     */
    method ScanObject(script: seq<Choice>) returns (i: nat, l: Local)
      requires Valid()
      modifies this
      ensures (Now(), l) == Alone(sha, old(Now()), Scan, BEGIN, script, 0)
      ensures Valid() && old(log) <= log
      ensures !old(row.state.PendingScan?) ==> Now() == old(Now())
      ensures row.state.Released? && !old(row.state.Released?) ==>
                && |log| > |old(log)| && log[|log| - 1].Changed?
                && log[|log| - 1].pass.first && log[|log| - 1].pass.second
                && log[|log| - 1].pass.statuses.Some? && AllClean(log[|log| - 1].pass.statuses.value)
                && row.typeKnown && !row.typeConflict
                && row.place.ReleasedDir? && out.Some? && iso.None?
                && (old(BytesOk(Now(), submitted)) ==> out.value.bytes == submitted)
      ensures old(row.state.PendingScan?) && Calm(script) && |script| >= 13 ==>
                ScanEnds(sha, old(Now()), script[4].statuses, Now())
      ensures old(BytesOk(Now(), submitted) && row.state.PendingScan? && runtime && row.typeKnown && !row.typeConflict)
              && CleanScript(script) && |script| >= 13 ==>
                row.state == if old(outDir) then Quarantined else Released
    {
      ghost var was := Now();
      ghost var untampered := BytesOk(was, submitted);
      AloneKeeps(sha, was, Scan, BEGIN, script, 0);
      AloneGrows(sha, was, Scan, BEGIN, script, 0, submitted);
      if !row.state.PendingScan? {
        UnscannedAlone(sha, was, script);
      } else if Calm(script) && |script| >= 13 {
        ScanOutcome(sha, was, script);
        if untampered && runtime && row.typeKnown && !row.typeConflict && CleanScript(script) {
          CleanPassReleases(sha, Stored(false), script);
        }
      }
      i, l := ClaimAndScan(script);
      if row.state.Released? && was.row.state.PendingScan? {
        FailClosed(sha, Stored(!untampered));
      }
    }

    method ClaimAndScan(script: seq<Choice>) returns (i: nat, l: Local)
      modifies this
      ensures (Now(), l) == Alone(sha, old(Now()), Scan, BEGIN, script, 0)
    {
      i, l := 0, BEGIN;
      if i == |script| { return; }
      var m := Move(Scanning, ToFirstCheck, ToEnd);
      l, i := if script[i].ok then l.(pc := Reading(m)) else Raised(l), i + 1;
      assert Reaches(Scan, old(Now()), BEGIN, 0, l, i, script);
      if l.pc.Gone? { return; }
      i, l := Transition(m, Scan, l, script, i);
      if i == |script| || l.pc.Gone? { return; }
      i, l := CheckAndScan(l, script, i);
    }

    /** The step raises: the pass fails closed. */
    method Catch(was: Local, script: seq<Choice>, start: nat) returns (i: nat, l: Local)
      requires start < |script| && Raises(was, script[start]) && Raised(was).pc == Failing
      modifies this`row, this`log
      ensures Reaches(Scan, old(Now()), was, start, l, i, script)
      ensures i == |script| || l.pc.Gone?
    {
      i, l := start + 1, Raised(was);
      assert Reaches(Scan, old(Now()), was, start, l, i, script);
      i, l := FailScan(l, script, i);
    }

    method CheckAndScan(was: Local, script: seq<Choice>, start: nat) returns (i: nat, l: Local)
      requires start <= |script| && was.pc == FirstCheck
      modifies this
      ensures Reaches(Scan, old(Now()), was, start, l, i, script)
      ensures i == |script| || l.pc.Gone?
    {
      i, l := start, was;
      if i == |script| { return; }
      if !script[i].ok {
        i, l := Catch(l, script, i);
        return;
      }
      l := l.(path := row.place);
      if !runtime || !IntactAt(l.path) {
        l, i := MoveTo(l, Quarantined), i + 1;
        assert Reaches(Scan, old(Now()), was, start, l, i, script);
        i, l := Conclude(l, script, i);
      } else {
        l, i := l.(pass := NO_PASS.(first := true), pc := RunScanners), i + 1;
        assert Reaches(Scan, old(Now()), was, start, l, i, script);
        i, l := ScanAndRecheck(l, script, i);
      }
    }

    method ScanAndRecheck(was: Local, script: seq<Choice>, start: nat) returns (i: nat, l: Local)
      requires start <= |script| && was.pc == RunScanners
      modifies this
      ensures Reaches(Scan, old(Now()), was, start, l, i, script)
      ensures i == |script| || l.pc.Gone?
    {
      i, l := start, was;
      if i == |script| { return; }
      var statuses := script[i].statuses;
      if !script[i].ok {
        i, l := Catch(l, script, i);
        return;
      }
      l := l.(pass := l.pass.(statuses := Some(statuses)));
      if AnyInfected(statuses) {
        l, i := MoveTo(l, Rejected), i + 1;
        assert Reaches(Scan, old(Now()), was, start, l, i, script);
        i, l := Conclude(l, script, i);
      } else if !AllClean(statuses) || !row.typeKnown || row.typeConflict {
        l, i := MoveTo(l, Quarantined), i + 1;
        assert Reaches(Scan, old(Now()), was, start, l, i, script);
        i, l := Conclude(l, script, i);
      } else {
        l, i := l.(pc := SecondCheck), i + 1;
        assert Reaches(Scan, old(Now()), was, start, l, i, script);
        i, l := RecheckAndRelease(l, script, i);
      }
    }

    method RecheckAndRelease(was: Local, script: seq<Choice>, start: nat) returns (i: nat, l: Local)
      requires start <= |script| && was.pc == SecondCheck
      modifies this
      ensures Reaches(Scan, old(Now()), was, start, l, i, script)
      ensures i == |script| || l.pc.Gone?
    {
      i, l := start, was;
      if i == |script| { return; }
      if !script[i].ok {
        i, l := Catch(l, script, i);
        return;
      }
      if !IntactAt(l.path) {
        l, i := MoveTo(l, Quarantined), i + 1;
        assert Reaches(Scan, old(Now()), was, start, l, i, script);
        i, l := Conclude(l, script, i);
      } else {
        l, i := l.(pass := l.pass.(second := true), pc := MakeDir), i + 1;
        assert Reaches(Scan, old(Now()), was, start, l, i, script);
        i, l := MoveOut(l, script, i);
      }
    }

    /** Make the released directory. */
    method MoveOut(was: Local, script: seq<Choice>, start: nat) returns (i: nat, l: Local)
      requires start <= |script| && was.pc == MakeDir
      modifies this
      ensures Reaches(Scan, old(Now()), was, start, l, i, script)
      ensures i == |script| || l.pc.Gone?
    {
      i, l := start, was;
      if i == |script| { return; }
      if !script[i].ok {
        i, l := Catch(l, script, i);
        return;
      }
      if outDir {
        l, i := l.(pc := Failing), i + 1;
        assert Reaches(Scan, old(Now()), was, start, l, i, script);
        i, l := FailScan(l, script, i);
        return;
      }
      outDir := true;
      l, i := l.(pc := MoveFile), i + 1;
      assert Reaches(Scan, old(Now()), was, start, l, i, script);
      i, l := RenameInto(l, script, i);
    }

    /** Rename the payload into the directory; the emptied one goes, whatever happens. */
    method RenameInto(was: Local, script: seq<Choice>, start: nat) returns (i: nat, l: Local)
      requires start <= |script| && was.pc == MoveFile && outDir
      modifies this
      ensures Reaches(Scan, old(Now()), was, start, l, i, script)
      ensures i == |script| || l.pc.Gone?
    {
      i, l := start, was;
      if i == |script| { return; }
      if !script[i].ok || !l.path.Isolation? || iso.None? {
        l, i := l.(pc := Failing), i + 1;
        assert Reaches(Scan, old(Now()), was, start, l, i, script);
        i, l := FailScan(l, script, i);
        return;
      }
      out, iso := iso, None;
      l, i := l.(pc := DropSource), i + 1;
      assert Reaches(Scan, old(Now()), was, start, l, i, script);
      if i == |script| { return; }
      Onward(sha, Now(), Scan, l, script, i);
      iso := None;
      l, i := l.(pc := SavePath), i + 1;
      assert Reaches(Scan, old(Now()), was, start, l, i, script);
      i, l := SavePathAndSeal(l, script, i);
    }

    method SavePathAndSeal(was: Local, script: seq<Choice>, start: nat) returns (i: nat, l: Local)
      requires start <= |script| && was.pc == SavePath
      modifies this
      ensures Reaches(Scan, old(Now()), was, start, l, i, script)
      ensures i == |script| || l.pc.Gone?
    {
      i, l := start, was;
      if i == |script| { return; }
      if !script[i].ok {
        i, l := Catch(l, script, i);
        return;
      }
      row := row.(place := ReleasedDir);
      l, i := l.(pc := Seal), i + 1;
      assert Reaches(Scan, old(Now()), was, start, l, i, script);
      i, l := SealAndRelease(l, script, i);
    }

    method SealAndRelease(was: Local, script: seq<Choice>, start: nat) returns (i: nat, l: Local)
      requires start <= |script| && was.pc == Seal
      modifies this
      ensures Reaches(Scan, old(Now()), was, start, l, i, script)
      ensures i == |script| || l.pc.Gone?
    {
      i, l := start, was;
      if i == |script| { return; }
      if !script[i].ok {
        i, l := Catch(l, script, i);
        return;
      }
      if out.None? {
        l, i := l.(pc := Failing), i + 1;
        assert Reaches(Scan, old(Now()), was, start, l, i, script);
        i, l := FailScan(l, script, i);
      } else {
        out := Some(out.value.(sealed := true));
        l, i := MoveTo(l, Released), i + 1;
        assert Reaches(Scan, old(Now()), was, start, l, i, script);
        i, l := Conclude(l, script, i);
      }
    }

    /** The pass's final transition; a lost race is handled like any other exception. */
    method Conclude(was: Local, script: seq<Choice>, start: nat) returns (i: nat, l: Local)
      requires start <= |script| && was.pc.Reading?
      requires was.pc.m.next == ToEnd && was.pc.m.fail == ToFailing
      modifies this`row, this`log
      ensures Reaches(Scan, old(Now()), was, start, l, i, script)
      ensures i == |script| || l.pc.Gone?
    {
      i, l := Transition(was.pc.m, Scan, was, script, start);
      if i == |script| || l.pc.Gone? { return; }
      i, l := FailScan(l, script, i);
    }

    method FailScan(was: Local, script: seq<Choice>, start: nat) returns (i: nat, l: Local)
      requires start <= |script| && was.pc == Failing
      modifies this`row, this`log
      ensures Reaches(Scan, old(Now()), was, start, l, i, script)
      ensures i == |script| || l.pc.Gone?
    {
      i, l := start, was;
      if i == |script| { return; }
      var m := Move(Quarantined, ToEnd, ToEnd);
      l, i := l.(pc := if script[i].ok && row.state.Scanning? then Reading(m) else Gone), i + 1;
      assert Reaches(Scan, old(Now()), was, start, l, i, script);
      if l.pc.Gone? { return; }
      i, l := Transition(m, Scan, l, script, i);
    }

    /**
     `fail_scan_job` for an inbound object whose scan job has exhausted its attempts: an object whose scan is due or
     under way ends in quarantine, any other stays as it is.
     */
    method FailScanJob(script: seq<Choice>) returns (i: nat, l: Local)
      requires Valid()
      modifies this`row, this`log
      ensures (Now(), l) == Alone(sha, old(Now()), DeadLetter, BEGIN, script, 0)
      ensures Valid() && old(log) <= log
      ensures |script| >= 6 && Calm(script) ==>
                if old(row.state.PendingScan? || row.state.Scanning?) then row == old(row).(state := Quarantined)
                else Now() == old(Now())
    {
      AloneKeeps(sha, Now(), DeadLetter, BEGIN, script, 0);
      AloneGrows(sha, Now(), DeadLetter, BEGIN, script, 0, submitted);
      if |script| >= 6 && Calm(script) {
        DeadLetterAlone(sha, Now(), script);
      }
      i, l := ClaimAndFail(script);
    }

    method ClaimAndFail(script: seq<Choice>) returns (i: nat, l: Local)
      modifies this`row, this`log
      ensures (Now(), l) == Alone(sha, old(Now()), DeadLetter, BEGIN, script, 0)
    {
      i, l := 0, BEGIN;
      if i == |script| { return; }
      var m := Move(Scanning, ToDeadSecond, ToEnd);
      l := l.(pc := if !script[i].ok then Gone else if row.state.PendingScan? then Reading(m) else DeadSecond);
      i := i + 1;
      assert Reaches(DeadLetter, old(Now()), BEGIN, 0, l, i, script);
      if l.pc.Gone? { return; }
      if l.pc.Reading? {
        i, l := Transition(m, DeadLetter, l, script, i);
        if i == |script| || l.pc.Gone? { return; }
      }
      i, l := QuarantineDead(l, script, i);
    }

    method QuarantineDead(was: Local, script: seq<Choice>, start: nat) returns (i: nat, l: Local)
      requires start <= |script| && was.pc == DeadSecond
      modifies this`row, this`log
      ensures Reaches(DeadLetter, old(Now()), was, start, l, i, script)
      ensures i == |script| || l.pc.Gone?
    {
      i, l := start, was;
      if i == |script| { return; }
      var m := Move(Quarantined, ToEnd, ToEnd);
      l, i := l.(pc := if script[i].ok && row.state.Scanning? then Reading(m) else Gone), i + 1;
      assert Reaches(DeadLetter, old(Now()), was, start, l, i, script);
      if l.pc.Gone? { return; }
      i, l := Transition(m, DeadLetter, l, script, i);
    }
  }
}
