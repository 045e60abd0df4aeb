/**
 Disk-space admission of upload sessions. A session is admitted only if the volume could take every
 active session's missing parts and, on top of them, every assembled copy at once. Staged parts,
 temporary part files, assembled copies and registered objects all live on the same volume.
 */
module Admission {
  import opened Basics
  import opened PartPlan

  type User = string

  datatype Phase = Uploading | Completing | Ended

  /**
   `parts` are the part rows with their sizes, `open` the bytes that part requests may still write after their
   capacity check, `temps` the bytes of part files without a row, `assembled` those of the copy.
   */
  datatype Session = Session(user: User, total: nat, chunk: nat, phase: Phase, parts: map<nat, nat>, open: nat,
                             temps: nat, assembled: nat)

  /** A creation that has read the received bytes and not yet the reserved ones. */
  datatype Creation = Creation(user: User, total: nat, chunk: nat, received: int)

  datatype Limits = Limits(reserve: int, maxUpload: int, maxActive: int, maxStaged: int)

  /**
   `stored` are the bytes of registered objects and `taken` what everything but uploads has added, on balance.
   `outside` counts only its additions, and `late` the bytes an admission subtracted as received although their
   session had ended before it read the reserved ones.
   */
  datatype Volume = Volume(sessions: seq<Session>, creating: Option<Creation>, free: int, stored: nat, taken: int,
                           outside: nat, late: nat)

  function EmptyVolume(free: int): Volume {
    Volume([], None, free, 0, 0, 0, 0)
  }

  function ReceivedBytes(s: Session): nat {
    if s.chunk > 0 then Received(s.parts, PartCount(s.total, s.chunk)) else 0
  }

  predicate Active(s: Session) {
    !s.phase.Ended?
  }

  // ------------------------------------------------------------------------------------------
  // Column sums
  // ------------------------------------------------------------------------------------------

  function Sum(rows: seq<Session>, f: Session -> int): int {
    if rows == [] then 0 else Sum(rows[..|rows| - 1], f) + f(rows[|rows| - 1])
  }

  lemma {:induction false} SumUpdate(rows: seq<Session>, f: Session -> int, i: nat, s: Session)
    requires i < |rows|
    ensures Sum(rows[i := s], f) == Sum(rows, f) - f(rows[i]) + f(s)
  {
    var n := |rows| - 1;
    if i < n {
      assert rows[i := s][..n] == rows[..n][i := s];
      SumUpdate(rows[..n], f, i, s);
    } else {
      assert rows[i := s][..n] == rows[..n];
    }
  }

  lemma {:induction false} SumAppend(rows: seq<Session>, f: Session -> int, s: Session)
    ensures Sum(rows + [s], f) == Sum(rows, f) + f(s)
  {
    assert (rows + [s])[..|rows|] == rows;
  }

  lemma {:induction false} SumCompare(rows: seq<Session>, f: Session -> int, g: Session -> int)
    requires forall i :: 0 <= i < |rows| ==> f(rows[i]) <= g(rows[i])
    ensures Sum(rows, f) <= Sum(rows, g)
  {
    if rows != [] {
      SumCompare(rows[..|rows| - 1], f, g);
    }
  }

  lemma {:induction false} SumAtLeast(rows: seq<Session>, f: Session -> int, i: nat)
    requires i < |rows| && forall k :: 0 <= k < |rows| ==> f(rows[k]) >= 0
    ensures Sum(rows, f) >= f(rows[i])
  {
    var n := |rows| - 1;
    if i < n {
      SumAtLeast(rows[..n], f, i);
    } else {
      SumNonNegative(rows[..n], f);
    }
  }

  lemma {:induction false} SumNonNegative(rows: seq<Session>, f: Session -> int)
    requires forall k :: 0 <= k < |rows| ==> f(rows[k]) >= 0
    ensures Sum(rows, f) >= 0
  {
    if rows != [] {
      SumNonNegative(rows[..|rows| - 1], f);
    }
  }

  function ActiveTotal(s: Session): int {
    if Active(s) then s.total else 0
  }

  function ActiveReceived(s: Session): int {
    if Active(s) then ReceivedBytes(s) else 0
  }

  function CountOf(user: User): Session -> int {
    (s: Session) => if Active(s) && s.user == user then 1 else 0
  }

  function StagedOf(user: User): Session -> int {
    (s: Session) => if Active(s) && s.user == user then s.total else 0
  }

  /** Bytes an active session may still add: its missing parts and the rest of its assembled copy. */
  function Remaining(s: Session): int {
    if Active(s) then 2 * s.total - ReceivedBytes(s) - s.assembled else 0
  }

  function Temps(s: Session): int {
    s.temps
  }

  /** Bytes the files of a session occupy. */
  function Occupied(s: Session): int {
    ReceivedBytes(s) + s.temps + s.assembled
  }

  // ------------------------------------------------------------------------------------------
  // Steps
  // ------------------------------------------------------------------------------------------

  predicate HasCapacity(c: Limits, v: Volume, required: int) {
    required >= 0 && v.free - required >= c.reserve
  }

  /** The limits of the user, checked before anything else is read. */
  predicate WithinLimits(c: Limits, v: Volume, user: User, total: int) {
    && 0 < total <= c.maxUpload
    && Sum(v.sessions, CountOf(user)) < c.maxActive
    && Sum(v.sessions, StagedOf(user)) + total <= c.maxStaged
  }

  /**
   All remaining parts arrive and every active upload is assembled before its parts are removed. The received
   bytes were read earlier than the reserved ones.
   */
  predicate Admits(c: Limits, v: Volume, creation: Creation) {
    HasCapacity(c, v, 2 * Sum(v.sessions, ActiveTotal) - creation.received + 2 * creation.total)
  }

  function Admitted(creation: Creation): Session {
    Session(creation.user, creation.total, creation.chunk, Uploading, map[], 0, 0, 0)
  }

  datatype Event =
    | BeginCreate(user: User, total: int, configuredChunk: int)   // up to the read of the received bytes
    | FinishCreate                                                // the read of the reserved bytes and the insert
    | AbandonCreate                                               // the process ends in between
    | BeginPart(i: nat, number: nat)      // a part request passes its capacity check
    | WriteTemp(i: nat, bytes: nat)       // part bytes arrive in a temporary file
    | CloseTemp(i: nat, bytes: nat)       // a part request ends before it has written all
    | DropTemp(i: nat, bytes: nat)        // a temporary file is removed
    | CommitPart(i: nat, number: nat)     // a full temporary file becomes the part
    | Reserve(i: nat)                     // completion starts
    | Copy(i: nat, bytes: nat)            // the assembled copy grows
    | DropCopy(i: nat)                    // the assembled copy is removed
    | Reset(i: nat)
    | Finish(i: nat)                      // the copy is registered as the object's payload
    | End(i: nat)                         // cancel or expire
    | Wipe(i: nat, bytes: nat)            // an ended session's part files and rows go, and some temporary files
    | Outside(delta: int)

  function SetSession(v: Volume, i: nat, s: Session, free: int): Volume
    requires i < |v.sessions|
  {
    v.(sessions := v.sessions[i := s], free := free)
  }

  function PartSize(s: Session, number: nat): nat
    requires s.chunk > 0
  {
    if 1 <= number <= PartCount(s.total, s.chunk) then
      PlanTiles(s.total, s.chunk, number);
      PlannedSize(s.total, s.chunk, number)
    else 0
  }

  function NextOf(c: Limits, v: Volume, i: nat, e: Event): Volume
    requires i < |v.sessions| && v.sessions[i].chunk > 0
  {
    var s := v.sessions[i];
    match e
    case BeginPart(_, number) =>
      var size := PartSize(s, number);
      if s.phase.Uploading? && size > 0 && HasCapacity(c, v, size)
      then SetSession(v, i, s.(open := s.open + size), v.free) else v
    case WriteTemp(_, bytes) =>
      if bytes <= s.open then SetSession(v, i, s.(open := s.open - bytes, temps := s.temps + bytes), v.free - bytes)
      else v
    case CloseTemp(_, bytes) => if bytes <= s.open then SetSession(v, i, s.(open := s.open - bytes), v.free) else v
    case DropTemp(_, bytes) =>
      if bytes <= s.temps then SetSession(v, i, s.(temps := s.temps - bytes), v.free + bytes) else v
    case CommitPart(_, number) =>
      var size := PartSize(s, number);
      if !s.phase.Uploading? || size == 0 || s.temps < size then v
      else if number in s.parts then SetSession(v, i, s.(temps := s.temps - size), v.free + size)
      else SetSession(v, i, s.(temps := s.temps - size, parts := s.parts[number := size]), v.free)
    case Reserve(_) =>
      if s.phase.Uploading? && ReceivedBytes(s) == s.total && HasCapacity(c, v, s.total)
      then SetSession(v, i, s.(phase := Completing), v.free) else v
    case Copy(_, bytes) =>
      if s.phase.Completing? && s.assembled + bytes <= s.total
      then SetSession(v, i, s.(assembled := s.assembled + bytes), v.free - bytes) else v
    case DropCopy(_) => SetSession(v, i, s.(assembled := 0), v.free + s.assembled)
    case Reset(_) => if s.phase.Completing? then SetSession(v, i, s.(phase := Uploading), v.free) else v
    case Finish(_) =>
      if s.phase.Completing? && s.assembled == s.total && ReceivedBytes(s) == s.total
      then SetSession(v, i, s.(phase := Ended, assembled := 0), v.free).(stored := v.stored + s.total) else v
    case End(_) => if Active(s) then SetSession(v, i, s.(phase := Ended), v.free) else v
    case Wipe(_, bytes) =>
      if Active(s) || bytes > s.temps then v
      else SetSession(v, i, s.(parts := map[], temps := s.temps - bytes, assembled := 0),
                      v.free + ReceivedBytes(s) + bytes + s.assembled)
    case _ => v
  }

  function Next(c: Limits, v: Volume, e: Event): Volume {
    match e
    case BeginCreate(user, total, configured) =>
      if v.creating.None? && WithinLimits(c, v, user, total) then
        v.(creating := Some(Creation(user, total, ChunkSize(configured), Sum(v.sessions, ActiveReceived))))
      else v
    case FinishCreate =>
      if v.creating.None? then v
      else if !Admits(c, v, v.creating.value) then v.(creating := None)
      else
        v.(creating := None, sessions := v.sessions + [Admitted(v.creating.value)],
           late := v.late + Max(0, v.creating.value.received - Sum(v.sessions, ActiveReceived)))
    case AbandonCreate => v.(creating := None)
    case Outside(delta) => v.(free := v.free - delta, taken := v.taken + delta, outside := v.outside + Max(0, delta))
    case _ => if e.i < |v.sessions| && v.sessions[e.i].chunk > 0 then NextOf(c, v, e.i, e) else v
  }

  function Run(c: Limits, v: Volume, events: seq<Event>): Volume
    decreases |events|
  {
    if events == [] then v else Run(c, Next(c, v, events[0]), events[1..])
  }

  // ------------------------------------------------------------------------------------------
  // The reservation
  // ------------------------------------------------------------------------------------------

  ghost predicate SessionOk(s: Session) {
    && s.chunk > 0 && s.total > 0 && s.assembled <= s.total
    && (forall k :: k in s.parts ==>
          1 <= k <= PartCount(s.total, s.chunk) && s.parts[k] == PlannedSize(s.total, s.chunk, k))
  }

  ghost predicate Inv(c: Limits, v: Volume) {
    && (forall i :: 0 <= i < |v.sessions| ==> SessionOk(v.sessions[i]))
    && v.free + Sum(v.sessions, Temps) + v.outside + v.late - Sum(v.sessions, Remaining) >= c.reserve
    && (forall u :: Sum(v.sessions, CountOf(u)) <= Max(0, c.maxActive))
    && (forall u :: Sum(v.sessions, StagedOf(u)) <= Max(0, c.maxStaged))
    && (v.creating.Some? ==>
          && WithinLimits(c, v, v.creating.value.user, v.creating.value.total) && v.creating.value.chunk > 0)
  }

  lemma {:induction false} ReceivedUpdate(sizes: map<nat, nat>, k: nat, size: nat, n: nat)
    requires 1 <= k
    ensures Received(sizes[k := size], n) ==
              Received(sizes, n) + if k <= n then size - (if k in sizes then sizes[k] else 0) else 0
  {
    if n > 0 {
      ReceivedUpdate(sizes, k, size, n - 1);
    }
  }

  lemma ReceivedAtMost(s: Session)
    requires SessionOk(s)
    ensures ReceivedBytes(s) <= s.total
  {
    var n := PartCount(s.total, s.chunk);
    ReceivedBound(s.total, s.chunk, s.parts, n);
    PlannedBytesPrefix(s.total, s.chunk, n);
  }

  /** What one session's step does to its own row and to the free space. */
  ghost predicate RowStep(s: Session, s': Session, free: int, free': int) {
    && SessionOk(s') && s'.user == s.user && s'.total == s.total && (Active(s') ==> Active(s))
    && free + Temps(s) - Remaining(s) <= free' + Temps(s') - Remaining(s')
  }

  lemma RowStepKeeps(c: Limits, v: Volume, i: nat, s: Session, free: int)
    requires Inv(c, v) && i < |v.sessions| && RowStep(v.sessions[i], s, v.free, free)
    ensures Inv(c, SetSession(v, i, s, free))
    ensures forall stored: nat :: Inv(c, SetSession(v, i, s, free).(stored := stored))
  {
    SumUpdate(v.sessions, Temps, i, s);
    SumUpdate(v.sessions, Remaining, i, s);
    forall u
      ensures Sum(v.sessions[i := s], CountOf(u)) <= Sum(v.sessions, CountOf(u))
      ensures Sum(v.sessions[i := s], StagedOf(u)) <= Sum(v.sessions, StagedOf(u))
    {
      SumUpdate(v.sessions, CountOf(u), i, s);
      SumUpdate(v.sessions, StagedOf(u), i, s);
    }
  }

  lemma NextOfKeeps(c: Limits, v: Volume, i: nat, e: Event)
    requires Inv(c, v) && i < |v.sessions|
    ensures Inv(c, NextOf(c, v, i, e))
  {
    var v' := NextOf(c, v, i, e);
    var s := v.sessions[i];
    ReceivedAtMost(s);
    if v' != v {
      var s' := v'.sessions[i];
      if e.CommitPart? {
        PlanTiles(s.total, s.chunk, e.number);
        ReceivedUpdate(s.parts, e.number, PartSize(s, e.number), PartCount(s.total, s.chunk));
      }
      assert RowStep(s, s', v.free, v'.free);
      RowStepKeeps(c, v, i, s', v'.free);
    }
  }

  lemma CreateKeeps(c: Limits, v: Volume)
    requires Inv(c, v)
    ensures Inv(c, Next(c, v, FinishCreate))
  {
    if v.creating.Some? && Admits(c, v, v.creating.value) {
      var s := Admitted(v.creating.value);
      NothingReceived(PartCount(s.total, s.chunk));
      SumAppend(v.sessions, Temps, s);
      SumAppend(v.sessions, Remaining, s);
      RemainingAtMost(v.sessions);
      forall u
        ensures Sum(v.sessions + [s], CountOf(u)) <= Max(0, c.maxActive)
        ensures Sum(v.sessions + [s], StagedOf(u)) <= Max(0, c.maxStaged)
      {
        SumAppend(v.sessions, CountOf(u), s);
        SumAppend(v.sessions, StagedOf(u), s);
      }
      SumNonNegative(v.sessions, Temps);
    }
  }

  lemma {:induction false} NothingReceived(n: nat)
    ensures Received(map[], n) == 0
  {
    if n > 0 {
      NothingReceived(n - 1);
    }
  }

  /** The admission check counts already assembled bytes again, so it is at least as strict as the invariant. */
  lemma {:induction false} RemainingAtMost(rows: seq<Session>)
    ensures Sum(rows, Remaining) <= 2 * Sum(rows, ActiveTotal) - Sum(rows, ActiveReceived)
  {
    if rows != [] {
      RemainingAtMost(rows[..|rows| - 1]);
    }
  }

  lemma NextKeeps(c: Limits, v: Volume, e: Event)
    requires Inv(c, v)
    ensures Inv(c, Next(c, v, e))
  {
    match e
    case FinishCreate => CreateKeeps(c, v);
    case BeginCreate(_, _, _) =>
    case AbandonCreate =>
    case Outside(_) =>
    case _ => if e.i < |v.sessions| { NextOfKeeps(c, v, e.i, e); }
  }

  lemma {:induction false} RunKeeps(c: Limits, v: Volume, events: seq<Event>)
    requires Inv(c, v)
    ensures Inv(c, Run(c, v, events))
    decreases |events|
  {
    if events != [] {
      NextKeeps(c, v, events[0]);
      RunKeeps(c, Next(c, v, events[0]), events[1..]);
    }
  }

  /** Temporary files of active sessions hold only bytes of parts that are still missing. */
  ghost predicate NoStrayTemps(v: Volume) {
    forall i :: 0 <= i < |v.sessions| ==>
      v.sessions[i].temps <= if Active(v.sessions[i]) then v.sessions[i].total - ReceivedBytes(v.sessions[i]) else 0
  }

  /**
   In every run, the free space covers the safety reserve and everything the active sessions may still
   write, short only of abandoned temporary files, of bytes written outside upload sessions and of sessions
   that ended within another one's admission; and no user exceeds the limits on active sessions and staged bytes.
   */
  lemma {:induction false} ReserveIsKept(c: Limits, free: int, events: seq<Event>)
    requires free >= c.reserve
    ensures var v := Run(c, EmptyVolume(free), events);
            && v.free >= c.reserve + Sum(v.sessions, Remaining) - Sum(v.sessions, Temps) - v.outside - v.late
            && (NoStrayTemps(v) && v.outside == v.late == 0 ==> v.free >= c.reserve)
            && (forall u :: Sum(v.sessions, CountOf(u)) <= Max(0, c.maxActive))
            && (forall u :: Sum(v.sessions, StagedOf(u)) <= Max(0, c.maxStaged))
  {
    RunKeeps(c, EmptyVolume(free), events);
    var v := Run(c, EmptyVolume(free), events);
    if NoStrayTemps(v) {
      SumCompare(v.sessions, Temps, Remaining);
    }
  }

  /**
   An admitted session is never refused for lack of space: without stray temporary files, outside
   writes and late reads, the capacity check passes for every missing part that nobody is writing yet, and
   for the completion of every session that has no copy left over.
   */
  lemma AdmittedIsNotRefused(c: Limits, v: Volume, i: nat, number: nat)
    requires Inv(c, v) && NoStrayTemps(v) && v.outside == v.late == 0
    requires i < |v.sessions| && Active(v.sessions[i])
    ensures var s := v.sessions[i];
            && (1 <= number <= PartCount(s.total, s.chunk)
                && s.temps + PartSize(s, number) <= s.total - ReceivedBytes(s) ==>
                  HasCapacity(c, v, PartSize(s, number)))
            && (s.assembled == 0 ==> HasCapacity(c, v, s.total))
  {
    var spare := (s: Session) => Remaining(s) - Temps(s);
    forall k | 0 <= k < |v.sessions| ensures spare(v.sessions[k]) >= 0 {
    }
    SumAtLeast(v.sessions, spare, i);
    SpareIsDifference(v.sessions, spare);
  }

  lemma {:induction false} SpareIsDifference(rows: seq<Session>, spare: Session -> int)
    requires forall s :: spare(s) == Remaining(s) - Temps(s)
    ensures Sum(rows, spare) == Sum(rows, Remaining) - Sum(rows, Temps)
  {
    if rows != [] {
      SpareIsDifference(rows[..|rows| - 1], spare);
    }
  }

  // ------------------------------------------------------------------------------------------
  // What is checked
  // ------------------------------------------------------------------------------------------

  /** The sessions of a user that are not over. */
  ghost function ActiveOf(rows: seq<Session>, user: User): set<nat> {
    set i: nat | i < |rows| && !rows[i].phase.Ended? && rows[i].user == user
  }

  lemma {:induction false} CountIs(rows: seq<Session>, user: User)
    ensures Sum(rows, CountOf(user)) == |ActiveOf(rows, user)|
  {
    if rows != [] {
      var n := |rows| - 1;
      CountIs(rows[..n], user);
      assert ActiveOf(rows, user) ==
             ActiveOf(rows[..n], user) + if !rows[n].phase.Ended? && rows[n].user == user then {n} else {};
    }
  }

  /** Sizes of the files a user's open sessions are for. */
  function Staged(rows: seq<Session>, user: User): int {
    if rows == [] then 0
    else
      var s := rows[|rows| - 1];
      Staged(rows[..|rows| - 1], user) + if !s.phase.Ended? && s.user == user then s.total else 0
  }

  /** Twice the sizes of all open sessions' files: their parts and their copies. */
  function DoubleReserved(rows: seq<Session>): int {
    if rows == [] then 0
    else
      var s := rows[|rows| - 1];
      DoubleReserved(rows[..|rows| - 1]) + if s.phase.Ended? then 0 else s.total + s.total
  }

  /** The bytes of the part rows of all open sessions. */
  function PartBytes(rows: seq<Session>): int {
    if rows == [] then 0
    else
      var s := rows[|rows| - 1];
      PartBytes(rows[..|rows| - 1])
      + if s.phase.Ended? || s.chunk == 0 then 0 else Received(s.parts, PartCount(s.total, s.chunk))
  }

  lemma {:induction false} SumsAre(rows: seq<Session>, user: User)
    ensures Sum(rows, StagedOf(user)) == Staged(rows, user)
    ensures 2 * Sum(rows, ActiveTotal) == DoubleReserved(rows)
    ensures Sum(rows, ActiveReceived) == PartBytes(rows)
  {
    if rows != [] {
      SumsAre(rows[..|rows| - 1], user);
    }
  }

  /** A part request may write, and a completion may start, only with its bytes free above the reserve. */
  lemma ChecksSpace(c: Limits, v: Volume, i: nat, number: nat)
    requires Inv(c, v) && i < |v.sessions|
    ensures var s := v.sessions[i];
            var planned := 1 <= number <= PartCount(s.total, s.chunk);
            && Next(c, v, BeginPart(i, number)) ==
                 (if s.phase.Uploading? && planned && v.free - PlannedSize(s.total, s.chunk, number) >= c.reserve then
                    v.(sessions := v.sessions[i := s.(open := s.open + PlannedSize(s.total, s.chunk, number))])
                  else v)
            && Next(c, v, Reserve(i)) ==
                 (if s.phase.Uploading? && (forall k :: 1 <= k <= PartCount(s.total, s.chunk) ==> k in s.parts)
                     && v.free - s.total >= c.reserve
                  then v.(sessions := v.sessions[i := s.(phase := Completing)]) else v)
  {
    var s := v.sessions[i];
    var count := PartCount(s.total, s.chunk);
    if 1 <= number <= count {
      PlanTiles(s.total, s.chunk, number);
    }
    ReceivedBound(s.total, s.chunk, s.parts, count);
    PlannedBytesPrefix(s.total, s.chunk, count);
  }

  // ------------------------------------------------------------------------------------------
  // Accounting
  // ------------------------------------------------------------------------------------------

  /** Everything written and not removed: by sessions, by registered objects, and by the rest. */
  function Written(v: Volume): int {
    Sum(v.sessions, Occupied) + v.stored + v.taken
  }

  lemma SessionIsAccounted(c: Limits, v: Volume, i: nat, e: Event)
    requires Inv(c, v) && i < |v.sessions|
    ensures var v' := NextOf(c, v, i, e); v'.free + Written(v') == v.free + Written(v)
  {
    var v' := NextOf(c, v, i, e);
    if v' != v {
      var s, s' := v.sessions[i], v'.sessions[i];
      NothingReceived(PartCount(s.total, s.chunk));
      if e.CommitPart? {
        PlanTiles(s.total, s.chunk, e.number);
        ReceivedUpdate(s.parts, e.number, PartSize(s, e.number), PartCount(s.total, s.chunk));
      }
      SumUpdate(v.sessions, Occupied, i, s');
    }
  }

  lemma NextIsAccounted(c: Limits, v: Volume, e: Event)
    requires Inv(c, v)
    ensures var v' := Next(c, v, e); v'.free + Written(v') == v.free + Written(v)
  {
    match e
    case FinishCreate =>
      if v.creating.Some? {
        var s := Admitted(v.creating.value);
        NothingReceived(PartCount(s.total, s.chunk));
        SumAppend(v.sessions, Occupied, s);
      }
    case BeginCreate(_, _, _) =>
    case AbandonCreate =>
    case Outside(_) =>
    case _ => if e.i < |v.sessions| { SessionIsAccounted(c, v, e.i, e); }
  }

  lemma {:induction false} RunIsAccounted(c: Limits, v: Volume, events: seq<Event>)
    requires Inv(c, v)
    ensures var v' := Run(c, v, events); v'.free + Written(v') == v.free + Written(v)
    decreases |events|
  {
    if events != [] {
      NextIsAccounted(c, v, events[0]);
      NextKeeps(c, v, events[0]);
      RunIsAccounted(c, Next(c, v, events[0]), events[1..]);
    }
  }

  /**
   In every run the free space and everything written make up the initial space, so the reserve is breached
   exactly when more than the space above it is written. Then the temporary files, the outside bytes and the
   late reads together outweigh what the active sessions may still write.
   */
  lemma {:induction false} SpaceIsAccounted(c: Limits, free: int, events: seq<Event>)
    requires free >= c.reserve
    ensures var v := Run(c, EmptyVolume(free), events);
            && v.free == free - Written(v)
            && (v.free < c.reserve <==> Written(v) > free - c.reserve)
            && (v.free < c.reserve ==> Sum(v.sessions, Temps) + v.outside + v.late > Sum(v.sessions, Remaining))
  {
    RunIsAccounted(c, EmptyVolume(free), events);
    ReserveIsKept(c, free, events);
  }

  // ------------------------------------------------------------------------------------------
  // The two ways past the reservation, as runs from an empty volume
  // ------------------------------------------------------------------------------------------

  lemma {:induction false} RunAppend(c: Limits, v: Volume, first: seq<Event>, second: seq<Event>)
    ensures Run(c, v, first + second) == Run(c, Run(c, v, first), second)
    decreases |first|
  {
    if first == [] {
      assert first + second == second;
    } else {
      assert (first + second)[1..] == first[1..] + second;
      RunAppend(c, Next(c, v, first[0]), first[1..], second);
    }
  }

  lemma RunOne(c: Limits, v: Volume, e: Event)
    ensures Run(c, v, [e]) == Next(c, v, e)
  {
    assert Run(c, v, [e]) == Run(c, Next(c, v, e), [e][1..]);
  }

  function OnePart(user: User, n: nat): Session {
    Session(user, n, ChunkSize(0), Uploading, map[], 0, 0, 0)
  }

  /** Creation of a session of one part. */
  function Creating(user: User, n: nat): seq<Event> {
    [BeginCreate(user, n, 0)] + [FinishCreate]
  }

  lemma OnePartPlan(n: nat)
    requires 0 < n <= ChunkSize(0)
    ensures PartCount(n, ChunkSize(0)) == 1 && PlannedSize(n, ChunkSize(0), 1) == n
  {
  }

  lemma FirstCreated(c: Limits, user: User, n: nat)
    requires 0 < n <= c.maxUpload && n <= ChunkSize(0) && n <= c.maxStaged && 1 <= c.maxActive
    ensures Run(c, EmptyVolume(c.reserve + 2 * n), Creating(user, n)) ==
            EmptyVolume(c.reserve + 2 * n).(sessions := [OnePart(user, n)])
  {
    var v := EmptyVolume(c.reserve + 2 * n);
    var v1 := v.(creating := Some(Creation(user, n, ChunkSize(0), 0)));
    RunAppend(c, v, [BeginCreate(user, n, 0)], [FinishCreate]);
    RunOne(c, v, BeginCreate(user, n, 0));
    RunOne(c, v1, FinishCreate);
  }

  /** Three requests that upload the same part at the same time. */
  function SamePartThrice(n: nat): seq<Event> {
    [BeginPart(0, 1)] + [BeginPart(0, 1)] + [BeginPart(0, 1)] + [WriteTemp(0, 3 * n)]
  }

  /**
   Concurrent uploads of one part breach the reserve: each passes its own capacity check before the others
   have written, and the admission has reserved the bytes of one of them and of the copy.
   */
  lemma SamePartBreachesReserve(c: Limits, user: User, n: nat)
    requires 0 < n <= c.maxUpload && n <= ChunkSize(0) && n <= c.maxStaged && 1 <= c.maxActive
    ensures var v := Run(c, EmptyVolume(c.reserve + 2 * n), Creating(user, n) + SamePartThrice(n));
            v.free < c.reserve && v.outside == v.late == 0
  {
    var v := EmptyVolume(c.reserve + 2 * n).(sessions := [OnePart(user, n)]);
    var e := BeginPart(0, 1);
    OnePartPlan(n);
    RunAppend(c, EmptyVolume(c.reserve + 2 * n), Creating(user, n), SamePartThrice(n));
    FirstCreated(c, user, n);
    var v1 := v.(sessions := [OnePart(user, n).(open := n)]);
    var v2 := v.(sessions := [OnePart(user, n).(open := 2 * n)]);
    var v3 := v.(sessions := [OnePart(user, n).(open := 3 * n)]);
    assert v.sessions[0 := OnePart(user, n).(open := n)] == v1.sessions;
    assert v1.sessions[0 := OnePart(user, n).(open := 2 * n)] == v2.sessions;
    assert v2.sessions[0 := OnePart(user, n).(open := 3 * n)] == v3.sessions;
    assert Next(c, v, e) == v1 && Next(c, v1, e) == v2 && Next(c, v2, e) == v3;
    RunOne(c, v, e);
    RunOne(c, v1, e);
    RunOne(c, v2, e);
    RunOne(c, v3, WriteTemp(0, 3 * n));
    RunAppend(c, v, [e], [e]);
    RunAppend(c, v, [e] + [e], [e]);
    RunAppend(c, v, [e] + [e] + [e], [WriteTemp(0, 3 * n)]);
  }

  lemma SumOne(s: Session, f: Session -> int)
    ensures Sum([s], f) == f(s)
  {
    assert [s][..0] == [];
  }

  /** The session of user a is received and copied while b's creation starts; it ends before that finishes. */
  function UploadFirst(n: nat): seq<Event> {
    [BeginPart(0, 1)] + [WriteTemp(0, n)] + [CommitPart(0, 1)] + [Reserve(0)] + [Copy(0, n)]
  }

  function CreateAcrossEnd(b: User, n: nat): seq<Event> {
    [BeginCreate(b, n, 0)] + [Finish(0)] + [Wipe(0, 0)] + [FinishCreate]
  }

  function UploadSecond(n: nat): seq<Event> {
    [BeginPart(1, 1)] + [WriteTemp(1, n)] + [CommitPart(1, 1)]
  }

  /** A session whose one part is received. */
  function Uploaded(user: User, n: nat): Session {
    OnePart(user, n).(parts := map[1 := n])
  }

  lemma UploadedReceived(user: User, n: nat)
    requires 0 < n <= ChunkSize(0)
    ensures ReceivedBytes(Uploaded(user, n)) == n
  {
    OnePartPlan(n);
    assert Received(Uploaded(user, n).parts, 1) == n;
  }

  lemma FirstReceived(c: Limits, v: Volume, a: User, n: nat)
    requires 0 < n <= ChunkSize(0) && v.sessions == [OnePart(a, n)] && v.free == c.reserve + 2 * n
    ensures Run(c, v, [BeginPart(0, 1)] + [WriteTemp(0, n)] + [CommitPart(0, 1)]) ==
            v.(sessions := [Uploaded(a, n)], free := c.reserve + n)
  {
    var s := OnePart(a, n);
    OnePartPlan(n);
    var v1 := v.(sessions := [s.(open := n)]);
    var v2 := v.(sessions := [s.(temps := n)], free := c.reserve + n);
    assert map[][1 := n] == map[1 := n];
    assert Next(c, v, BeginPart(0, 1)) == v1 && Next(c, v1, WriteTemp(0, n)) == v2;
    RunOne(c, v, BeginPart(0, 1));
    RunOne(c, v1, WriteTemp(0, n));
    RunOne(c, v2, CommitPart(0, 1));
    RunAppend(c, v, [BeginPart(0, 1)], [WriteTemp(0, n)]);
    RunAppend(c, v, [BeginPart(0, 1)] + [WriteTemp(0, n)], [CommitPart(0, 1)]);
  }

  lemma FirstUploaded(c: Limits, v: Volume, a: User, n: nat)
    requires 0 < n <= ChunkSize(0) && v.sessions == [OnePart(a, n)] && v.free == c.reserve + 2 * n
    ensures Run(c, v, UploadFirst(n)) ==
            v.(sessions := [Uploaded(a, n).(phase := Completing, assembled := n)], free := c.reserve)
  {
    var received := [BeginPart(0, 1)] + [WriteTemp(0, n)] + [CommitPart(0, 1)];
    var v3 := v.(sessions := [Uploaded(a, n)], free := c.reserve + n);
    var v4 := v.(sessions := [Uploaded(a, n).(phase := Completing)], free := c.reserve + n);
    FirstReceived(c, v, a, n);
    UploadedReceived(a, n);
    assert Next(c, v3, Reserve(0)) == v4;
    RunOne(c, v3, Reserve(0));
    RunOne(c, v4, Copy(0, n));
    RunAppend(c, v, received, [Reserve(0)]);
    RunAppend(c, v, received + [Reserve(0)], [Copy(0, n)]);
  }

  lemma CreatedAcrossEnd(c: Limits, v: Volume, a: User, b: User, n: nat)
    requires 0 < n <= c.maxUpload && n <= ChunkSize(0) && n <= c.maxStaged && 1 <= c.maxActive && a != b
    requires v == EmptyVolume(c.reserve).(sessions := [Uploaded(a, n).(phase := Completing, assembled := n)])
    ensures Run(c, v, CreateAcrossEnd(b, n)) ==
            EmptyVolume(c.reserve + n).(sessions := [OnePart(a, n).(phase := Ended), OnePart(b, n)],
                                        stored := n, late := n)
  {
    var s := v.sessions[0];
    var ended := Uploaded(a, n).(phase := Ended);
    OnePartPlan(n);
    UploadedReceived(a, n);
    var v1 := v.(creating := Some(Creation(b, n, ChunkSize(0), n)));
    var v2 := v1.(sessions := [ended], stored := n);
    var v3 := v2.(sessions := [OnePart(a, n).(phase := Ended)], free := c.reserve + n);
    SumOne(s, CountOf(b));
    SumOne(s, StagedOf(b));
    SumOne(s, ActiveReceived);
    SumOne(v3.sessions[0], ActiveTotal);
    SumOne(v3.sessions[0], ActiveReceived);
    assert Next(c, v, BeginCreate(b, n, 0)) == v1;
    assert Next(c, v1, Finish(0)) == v2 && Next(c, v2, Wipe(0, 0)) == v3;
    RunOne(c, v, BeginCreate(b, n, 0));
    RunOne(c, v1, Finish(0));
    RunOne(c, v2, Wipe(0, 0));
    RunOne(c, v3, FinishCreate);
    RunAppend(c, v, [BeginCreate(b, n, 0)], [Finish(0)]);
    RunAppend(c, v, [BeginCreate(b, n, 0)] + [Finish(0)], [Wipe(0, 0)]);
    RunAppend(c, v, [BeginCreate(b, n, 0)] + [Finish(0)] + [Wipe(0, 0)], [FinishCreate]);
  }

  lemma SecondUploaded(c: Limits, v: Volume, b: User, n: nat)
    requires 0 < n <= ChunkSize(0) && |v.sessions| == 2 && v.sessions[1] == OnePart(b, n) && v.free == c.reserve + n
    ensures Run(c, v, UploadSecond(n)) == v.(sessions := [v.sessions[0], Uploaded(b, n)], free := c.reserve)
  {
    var first, s := v.sessions[0], OnePart(b, n);
    OnePartPlan(n);
    var v1 := v.(sessions := [first, s.(open := n)]);
    var v2 := v.(sessions := [first, s.(temps := n)], free := c.reserve);
    assert map[][1 := n] == map[1 := n];
    assert Next(c, v, BeginPart(1, 1)) == v1 && Next(c, v1, WriteTemp(1, n)) == v2;
    RunOne(c, v, BeginPart(1, 1));
    RunOne(c, v1, WriteTemp(1, n));
    RunOne(c, v2, CommitPart(1, 1));
    RunAppend(c, v, [BeginPart(1, 1)], [WriteTemp(1, n)]);
    RunAppend(c, v, [BeginPart(1, 1)] + [WriteTemp(1, n)], [CommitPart(1, 1)]);
  }

  /**
   A creation reads the received bytes of a session, which then completes, and the reserved bytes afterwards.
   It is admitted on space that is gone: with every part received and no file astray, its completion is refused.
   */
  lemma LateReadRefusesCompletion(c: Limits, a: User, b: User, n: nat)
    requires 0 < n <= c.maxUpload && n <= ChunkSize(0) && n <= c.maxStaged && 1 <= c.maxActive && a != b
    ensures var events := Creating(a, n) + (UploadFirst(n) + (CreateAcrossEnd(b, n) + UploadSecond(n)));
            var v := Run(c, EmptyVolume(c.reserve + 2 * n), events);
            && |v.sessions| == 2 && v.sessions[1] == Uploaded(b, n) && ReceivedBytes(v.sessions[1]) == n
            && NoStrayTemps(v) && v.outside == 0 && v.late == n
            && !HasCapacity(c, v, n)
  {
    var v := EmptyVolume(c.reserve + 2 * n);
    var v1 := Run(c, v, Creating(a, n));
    var v2 := Run(c, v1, UploadFirst(n));
    var v3 := Run(c, v2, CreateAcrossEnd(b, n));
    FirstCreated(c, a, n);
    FirstUploaded(c, v1, a, n);
    CreatedAcrossEnd(c, v2, a, b, n);
    SecondUploaded(c, v3, b, n);
    UploadedReceived(b, n);
    RunAppend(c, v, Creating(a, n), UploadFirst(n) + (CreateAcrossEnd(b, n) + UploadSecond(n)));
    RunAppend(c, v1, UploadFirst(n), CreateAcrossEnd(b, n) + UploadSecond(n));
    RunAppend(c, v2, CreateAcrossEnd(b, n), UploadSecond(n));
  }

  // ------------------------------------------------------------------------------------------
  // Session creation as the service executes it
  // ------------------------------------------------------------------------------------------

  datatype Refusal = Accepted | BadSize | TooManyActive | StagingExhausted | NoSpace

  class UploadSessions {
    const limits: Limits
    var sessions: seq<Session>
    var free: int
    var creating: Option<Creation>
    ghost var stored: nat
    ghost var taken: int
    ghost var outside: nat
    ghost var late: nat

    constructor (limits: Limits, free: int)
      requires free >= limits.reserve
      ensures this.limits == limits && Now() == EmptyVolume(free) && Valid()
    {
      this.limits, sessions, creating, this.free := limits, [], None, free;
      stored, taken, outside, late := 0, 0, 0, 0;
    }

    ghost function Now(): Volume
      reads this
    {
      Volume(sessions, creating, free, stored, taken, outside, late)
    }

    ghost predicate Valid()
      reads this
    {
      Inv(limits, Now())
    }

    /** SELECT SUM over the session rows. */
    method Total(column: Session -> int) returns (sum: int)
      ensures sum == Sum(sessions, column)
    {
      sum := 0;
      var i := 0;
      while i < |sessions|
        invariant i <= |sessions| && sum == Sum(sessions[..i], column)
      {
        SumAppend(sessions[..i], column, sessions[i]);
        assert sessions[..i + 1] == sessions[..i] + [sessions[i]];
        sum := sum + column(sessions[i]);
        i := i + 1;
      }
      assert sessions[..i] == sessions;
    }

    /**
     The first half of a creation: the user's limits, and the received bytes of all active sessions. Other
     threads may end sessions before the second half.
     */
    method BeginCreation(user: User, total: int, configuredChunk: int) returns (refusal: Refusal)
      requires Valid() && creating.None?
      modifies this`creating
      ensures Valid() && Now() == Next(limits, old(Now()), BeginCreate(user, total, configuredChunk))
      ensures match refusal
              case BadSize => total <= 0 || total > limits.maxUpload
              case TooManyActive => 0 < total <= limits.maxUpload && |ActiveOf(sessions, user)| >= limits.maxActive
              case StagingExhausted =>
                && 0 < total <= limits.maxUpload && |ActiveOf(sessions, user)| < limits.maxActive
                && Staged(sessions, user) + total > limits.maxStaged
              case Accepted =>
                && 0 < total <= limits.maxUpload && |ActiveOf(sessions, user)| < limits.maxActive
                && Staged(sessions, user) + total <= limits.maxStaged
              case NoSpace => false
      ensures creating == if refusal.Accepted?
                          then Some(Creation(user, total, ChunkSize(configuredChunk), PartBytes(sessions))) else None
    {
      NextKeeps(limits, Now(), BeginCreate(user, total, configuredChunk));
      CountIs(sessions, user);
      SumsAre(sessions, user);
      if total <= 0 || total > limits.maxUpload { return BadSize; }
      var active := Total(CountOf(user));
      if active >= limits.maxActive { return TooManyActive; }
      var reserved := Total(StagedOf(user));
      if reserved + total > limits.maxStaged { return StagingExhausted; }
      var received := Total(ActiveReceived);
      creating := Some(Creation(user, total, ChunkSize(configuredChunk), received));
      refusal := Accepted;
    }

    /** The second half: the reserved bytes of all active sessions, the capacity check and the new row. */
    method FinishCreation() returns (refusal: Refusal)
      requires Valid() && creating.Some?
      modifies this`sessions, this`creating, this`late
      ensures Valid() && Now() == Next(limits, old(Now()), FinishCreate) && creating.None?
      ensures var creation := old(creating).value;
              var required := DoubleReserved(old(sessions)) - creation.received + creation.total + creation.total;
              && (refusal.Accepted? <==> required >= 0 && free - required >= limits.reserve)
              && (refusal.Accepted? || refusal.NoSpace?)
              && sessions == if refusal.Accepted?
                             then old(sessions) + [Session(creation.user, creation.total, creation.chunk, Uploading,
                                                           map[], 0, 0, 0)]
                             else old(sessions)
    {
      CreateKeeps(limits, Now());
      SumsAre(sessions, creating.value.user);
      var creation := creating.value;
      creating := None;
      var allReserved := Total(ActiveTotal);
      var required := (2 * allReserved - creation.received) + 2 * creation.total;
      if required < 0 || free - required < limits.reserve { return NoSpace; }
      late := late + Max(0, creation.received - Sum(sessions, ActiveReceived));
      sessions := sessions + [Session(creation.user, creation.total, creation.chunk, Uploading, map[], 0, 0, 0)];
      refusal := Accepted;
    }
  }
}
