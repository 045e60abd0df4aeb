/**
 Persistent login sessions: issuing one evicts the oldest beyond the cap in the same transaction,
 authentication revokes what has become invalid, maintenance deletes what is revoked or expired.
 Rows are kept in insertion order: a new row is the last one, as its rowid is the highest.
 */
module Sessions {
  import opened Basics

  datatype Zone = Green | Red | Admin | Development

  datatype Backend = Local | Ldap

  datatype Row = Row(digest: Digest, user: string, backend: Backend, zone: Zone, created: int, expires: int,
                     lastSeen: int, revoked: bool)

  datatype Config = Config(ttl: int, idle: int, cap: nat, backend: Backend)

  /** `active` holds the users that are enabled and human; `drawn` every token digest ever issued. */
  datatype World = World(rows: seq<Row>, active: set<string>, drawn: set<Digest>)

  predicate Live(row: Row, user: string, backend: Backend) {
    !row.revoked && row.user == user && row.backend == backend
  }

  /** ORDER BY created_at DESC, rowid DESC. */
  predicate Newer(rows: seq<Row>, i: nat, k: nat)
    requires i < |rows| && k < |rows|
  {
    rows[i].created > rows[k].created || (rows[i].created == rows[k].created && i > k)
  }

  // ------------------------------------------------------------------------------------------
  // Eviction: the query's ordering and its OFFSET
  // ------------------------------------------------------------------------------------------

  predicate Indices(rows: seq<Row>, order: seq<nat>) {
    forall a :: 0 <= a < |order| ==> order[a] < |rows|
  }

  function Place(rows: seq<Row>, order: seq<nat>, i: nat): (placed: seq<nat>)
    requires Indices(rows, order) && i < |rows|
    ensures Indices(rows, placed)
  {
    if order == [] || Newer(rows, i, order[0]) then [i] + order else [order[0]] + Place(rows, order[1..], i)
  }

  /** The live sessions among the first n rows, newest first. */
  function Ranked(rows: seq<Row>, user: string, backend: Backend, n: nat): (order: seq<nat>)
    requires n <= |rows|
    ensures Indices(rows, order)
  {
    if n == 0 then []
    else
      var order := Ranked(rows, user, backend, n - 1);
      if Live(rows[n - 1], user, backend) then Place(rows, order, n - 1) else order
  }

  function Revoked(rows: seq<Row>, doomed: seq<nat>): (r: seq<Row>)
    ensures |r| == |rows|
  {
    seq(|rows|, i requires 0 <= i < |rows| => if i in doomed then rows[i].(revoked := true) else rows[i])
  }

  function Evict(rows: seq<Row>, user: string, backend: Backend, cap: nat): (r: seq<Row>)
    ensures |r| == |rows|
  {
    var order := Ranked(rows, user, backend, |rows|);
    Revoked(rows, if |order| <= cap then [] else order[cap..])
  }

  ghost predicate Descending(rows: seq<Row>, order: seq<nat>) {
    Indices(rows, order) && forall a, b :: 0 <= a < b < |order| ==> Newer(rows, order[a], order[b])
  }

  lemma {:induction false} PlaceKeepsOrder(rows: seq<Row>, order: seq<nat>, i: nat)
    requires Descending(rows, order) && i < |rows| && i !in order
    ensures Descending(rows, Place(rows, order, i))
    ensures forall k: nat :: k in Place(rows, order, i) <==> k == i || k in order
  {
    if order != [] && !Newer(rows, i, order[0]) {
      var rest := Place(rows, order[1..], i);
      PlaceKeepsOrder(rows, order[1..], i);
      assert order == [order[0]] + order[1..];
      forall b | 0 <= b < |rest| ensures Newer(rows, order[0], rest[b]) {
        assert rest[b] == i || rest[b] in order[1..];
      }
    }
  }

  lemma {:induction false} RankedIsSorted(rows: seq<Row>, user: string, backend: Backend, n: nat)
    requires n <= |rows|
    ensures Descending(rows, Ranked(rows, user, backend, n))
    ensures forall k: nat :: k in Ranked(rows, user, backend, n) <==> k < n && Live(rows[k], user, backend)
  {
    if n > 0 {
      var order := Ranked(rows, user, backend, n - 1);
      RankedIsSorted(rows, user, backend, n - 1);
      if Live(rows[n - 1], user, backend) {
        assert (n - 1) !in order;
        PlaceKeepsOrder(rows, order, n - 1);
        assert Ranked(rows, user, backend, n) == Place(rows, order, n - 1);
      } else {
        assert Ranked(rows, user, backend, n) == order;
      }
    }
  }

  ghost function LiveOnes(rows: seq<Row>, user: string, backend: Backend): set<nat> {
    set i: nat | i < |rows| && !rows[i].revoked && rows[i].user == user && rows[i].backend == backend
  }

  ghost function NewerOnes(rows: seq<Row>, user: string, backend: Backend, k: nat): set<nat>
    requires k < |rows|
  {
    set i: nat |
      && i < |rows| && !rows[i].revoked && rows[i].user == user && rows[i].backend == backend
      && (rows[i].created > rows[k].created || (rows[i].created == rows[k].created && i > k))
  }

  ghost function Elements(order: seq<nat>): set<nat> {
    set k | k in order
  }

  lemma {:induction false} DistinctCount(order: seq<nat>)
    requires forall a, b :: 0 <= a < b < |order| ==> order[a] != order[b]
    ensures |Elements(order)| == |order|
  {
    if order != [] {
      var n := |order| - 1;
      DistinctCount(order[..n]);
      assert order == order[..n] + [order[n]];
      assert Elements(order) == Elements(order[..n]) + {order[n]};
      assert order[n] !in Elements(order[..n]);
    }
  }

  /** In a descending order, the elements before a position are exactly the newer ones. */
  lemma {:induction false} NewerComeFirst(rows: seq<Row>, user: string, backend: Backend, p: nat)
    requires p < |Ranked(rows, user, backend, |rows|)|
    ensures |NewerOnes(rows, user, backend, Ranked(rows, user, backend, |rows|)[p])| == p
  {
    var order := Ranked(rows, user, backend, |rows|);
    RankedIsSorted(rows, user, backend, |rows|);
    var k := order[p];
    assert NewerOnes(rows, user, backend, k) == Elements(order[..p]) by {
      forall i | i in NewerOnes(rows, user, backend, k) ensures i in order[..p] {
        assert i in order;
        var a :| 0 <= a < |order| && order[a] == i;
        assert a != p && !(p < a);
        assert order[..p][a] == i;
      }
      forall i | i in order[..p] ensures i in NewerOnes(rows, user, backend, k) {
        var a :| 0 <= a < p && order[a] == i;
        assert i in order;
      }
    }
    DistinctCount(order[..p]);
  }

  /**
   The eviction query is "keep the newest": a live session survives exactly when fewer than `cap` live
   sessions of the same user and backend are newer. Nothing else changes.
   */
  lemma {:induction false} EvictionKeepsNewest(rows: seq<Row>, user: string, backend: Backend, cap: nat, k: nat)
    requires k < |rows|
    ensures var r := Evict(rows, user, backend, cap);
            r[k] == if rows[k].user == user && rows[k].backend == backend && |NewerOnes(rows, user, backend, k)| >= cap
                    then rows[k].(revoked := true) else rows[k]
  {
    var order := Ranked(rows, user, backend, |rows|);
    RankedIsSorted(rows, user, backend, |rows|);
    if Live(rows[k], user, backend) {
      assert k in order;
      var p :| 0 <= p < |order| && order[p] == k;
      NewerComeFirst(rows, user, backend, p);
      if p >= cap {
        assert order[cap..][p - cap] == k;
      } else if |order| > cap {
        forall a | 0 <= a < |order[cap..]| ensures order[cap..][a] != k {
          assert Newer(rows, order[p], order[cap + a]);
        }
      }
    } else if |order| > cap {
      forall a | 0 <= a < |order[cap..]| ensures order[cap..][a] != k {
        assert order[cap + a] in order;
      }
    }
  }

  /** After an eviction the user has at most `cap` live sessions, whatever the table held before. */
  lemma {:induction false} EvictionCaps(rows: seq<Row>, user: string, backend: Backend, cap: nat)
    ensures |LiveOnes(Evict(rows, user, backend, cap), user, backend)| <= cap
  {
    var order := Ranked(rows, user, backend, |rows|);
    RankedIsSorted(rows, user, backend, |rows|);
    var kept := order[..Min(cap, |order|)];
    forall k | k in LiveOnes(Evict(rows, user, backend, cap), user, backend) ensures k in Elements(kept) {
      EvictionKeepsNewest(rows, user, backend, cap, k);
      assert k in order;
      var p :| 0 <= p < |order| && order[p] == k;
      NewerComeFirst(rows, user, backend, p);
      assert kept[p] == k;
    }
    DistinctCount(kept);
    SubsetCount(LiveOnes(Evict(rows, user, backend, cap), user, backend), Elements(kept));
  }

  lemma SubsetCount(a: set<nat>, b: set<nat>)
    requires a <= b
    ensures |a| <= |b|
  {
    assert b == a + (b - a);
  }

  // ------------------------------------------------------------------------------------------
  // Operations
  // ------------------------------------------------------------------------------------------

  function Find(rows: seq<Row>, digest: Digest): (i: nat)
    ensures i <= |rows| && (i < |rows| ==> rows[i].digest == digest)
    ensures forall k :: 0 <= k < i ==> rows[k].digest != digest
  {
    if rows == [] || rows[0].digest == digest then 0 else 1 + Find(rows[1..], digest)
  }

  /** The guarded insert and the eviction are one transaction; a refused insert rolls both back. */
  function Issue(c: Config, w: World, user: string, zone: Zone, digest: Digest, guard: bool, now: int): World {
    if digest in w.drawn || user !in w.active || (c.backend.Local? && !guard) then w
    else
      var row := FreshRow(c, user, zone, digest, now);
      w.(rows := Evict(w.rows + [row], user, c.backend, c.cap), drawn := w.drawn + {digest})
  }

  predicate Valid(c: Config, w: World, row: Row, now: int) {
    && !row.revoked && row.backend == c.backend && row.expires > now && row.lastSeen + c.idle > now
    && row.user in w.active
  }

  predicate Admitted(c: Config, w: World, digest: Digest, zone: Zone, now: int) {
    var i := Find(w.rows, digest);
    && i < |w.rows| && Valid(c, w, w.rows[i], now)
    && (w.rows[i].zone == zone || w.rows[i].zone.Development?)
  }

  function Authenticate(c: Config, w: World, digest: Digest, zone: Zone, now: int): World {
    var i := Find(w.rows, digest);
    if i == |w.rows| then w
    else if !Valid(c, w, w.rows[i], now) then w.(rows := w.rows[i := w.rows[i].(revoked := true)])
    else if w.rows[i].zone != zone && !w.rows[i].zone.Development? then w
    else w.(rows := w.rows[i := w.rows[i].(lastSeen := now)])
  }

  function RevokeOne(w: World, digest: Digest): World {
    w.(rows := seq(|w.rows|, i requires 0 <= i < |w.rows| =>
      if w.rows[i].digest == digest then w.rows[i].(revoked := true) else w.rows[i]))
  }

  function RevokeUser(w: World, user: string): World {
    w.(rows := seq(|w.rows|, i requires 0 <= i < |w.rows| =>
      if w.rows[i].user == user then w.rows[i].(revoked := true) else w.rows[i]))
  }

  function Kept(rows: seq<Row>, now: int): (r: seq<Row>)
    ensures forall row :: row in r <==> row in rows && !row.revoked && row.expires > now
  {
    if rows == [] then []
    else
      var n := |rows| - 1;
      assert rows == rows[..n] + [rows[n]];
      Kept(rows[..n], now) + if rows[n].revoked || rows[n].expires <= now then [] else [rows[n]]
  }

  datatype Event =
    | Issuing(user: string, zone: Zone, digest: Digest, guard: bool, now: int)
    | Authenticating(digest: Digest, zone: Zone, now: int)
    | RevokingOne(digest: Digest)
    | RevokingUser(user: string)
    | Purging(now: int)
    | SetActive(user: string, isActive: bool)

  function Next(c: Config, w: World, e: Event): World {
    match e
    case Issuing(user, zone, digest, guard, now) => Issue(c, w, user, zone, digest, guard, now)
    case Authenticating(digest, zone, now) => Authenticate(c, w, digest, zone, now)
    case RevokingOne(digest) => RevokeOne(w, digest)
    case RevokingUser(user) => RevokeUser(w, user)
    case Purging(now) => w.(rows := Kept(w.rows, now))
    case SetActive(user, isActive) => w.(active := if isActive then w.active + {user} else w.active - {user})
  }

  function Run(c: Config, w: World, events: seq<Event>): World
    decreases |events|
  {
    if events == [] then w else Run(c, Next(c, w, events[0]), events[1..])
  }

  // ------------------------------------------------------------------------------------------
  // What holds over every run
  // ------------------------------------------------------------------------------------------

  function LiveCount(rows: seq<Row>, user: string, backend: Backend): nat {
    if rows == [] then 0
    else LiveCount(rows[..|rows| - 1], user, backend) + if Live(rows[|rows| - 1], user, backend) then 1 else 0
  }

  lemma {:induction false} CountsLiveOnes(rows: seq<Row>, user: string, backend: Backend)
    ensures |LiveOnes(rows, user, backend)| == LiveCount(rows, user, backend)
  {
    if rows != [] {
      var n := |rows| - 1;
      CountsLiveOnes(rows[..n], user, backend);
      assert LiveOnes(rows, user, backend) ==
             LiveOnes(rows[..n], user, backend) + if Live(rows[n], user, backend) then {n} else {};
    }
  }

  ghost predicate Inv(c: Config, w: World) {
    && c.cap >= 1
    && (forall i :: 0 <= i < |w.rows| ==> w.rows[i].digest in w.drawn)
    && DistinctDigests(w.rows)
    && (forall u, b :: LiveCount(w.rows, u, b) <= c.cap)
  }

  /** Row by row, sessions only lose liveness. */
  ghost predicate OnlyRevokes(a: seq<Row>, b: seq<Row>) {
    |a| == |b| && forall i :: 0 <= i < |a| ==>
      b[i].digest == a[i].digest && forall u, k :: Live(b[i], u, k) ==> Live(a[i], u, k)
  }

  lemma {:induction false} RevokingLowersCount(a: seq<Row>, b: seq<Row>, user: string, backend: Backend)
    requires OnlyRevokes(a, b)
    ensures LiveCount(b, user, backend) <= LiveCount(a, user, backend)
  {
    if a != [] {
      RevokingLowersCount(a[..|a| - 1], b[..|b| - 1], user, backend);
    }
  }

  lemma {:induction false} KeptStep(rows: seq<Row>, now: int)
    requires rows != []
    ensures var n := |rows| - 1;
            var kept := Kept(rows[..n], now);
            Kept(rows, now) == if rows[n].revoked || rows[n].expires <= now then kept else kept + [rows[n]]
  {
  }

  lemma {:induction false} CountAppend(rows: seq<Row>, row: Row, user: string, backend: Backend)
    ensures LiveCount(rows + [row], user, backend) ==
              LiveCount(rows, user, backend) + if Live(row, user, backend) then 1 else 0
  {
    assert (rows + [row])[..|rows|] == rows;
  }

  lemma {:induction false} KeepingLowersCount(rows: seq<Row>, now: int, user: string, backend: Backend)
    ensures LiveCount(Kept(rows, now), user, backend) <= LiveCount(rows, user, backend)
  {
    if rows != [] {
      var front, last := rows[..|rows| - 1], rows[|rows| - 1];
      KeepingLowersCount(front, now, user, backend);
      KeptStep(rows, now);
      CountAppend(Kept(front, now), last, user, backend);
    }
  }

  predicate DistinctDigests(rows: seq<Row>) {
    forall i, k :: 0 <= i < k < |rows| ==> rows[i].digest != rows[k].digest
  }

  lemma {:induction false} KeepingStaysDistinct(rows: seq<Row>, now: int)
    requires DistinctDigests(rows)
    ensures DistinctDigests(Kept(rows, now))
  {
    if rows != [] {
      var n := |rows| - 1;
      KeepingStaysDistinct(rows[..n], now);
      KeptStep(rows, now);
      var kept := Kept(rows[..n], now);
      forall i | 0 <= i < |kept| ensures kept[i].digest != rows[n].digest {
        assert kept[i] in kept;
        var k :| 0 <= k < n && rows[..n][k] == kept[i];
      }
    }
  }

  lemma {:induction false} EvictOnlyRevokes(rows: seq<Row>, user: string, backend: Backend, cap: nat)
    ensures OnlyRevokes(rows, Evict(rows, user, backend, cap))
    ensures forall i :: 0 <= i < |rows| ==>
              Evict(rows, user, backend, cap)[i] == rows[i].(revoked := Evict(rows, user, backend, cap)[i].revoked)
    ensures forall i :: 0 <= i < |rows| && !Live(rows[i], user, backend) ==>
              Evict(rows, user, backend, cap)[i] == rows[i]
  {
    forall i | 0 <= i < |rows| && !Live(rows[i], user, backend)
      ensures Evict(rows, user, backend, cap)[i] == rows[i]
    {
      EvictionKeepsNewest(rows, user, backend, cap, i);
    }
  }

  function FreshRow(c: Config, user: string, zone: Zone, digest: Digest, now: int): Row {
    Row(digest, user, c.backend, zone, now, now + c.ttl, now, false)
  }

  /** One row is added and then rows are revoked, so that its owner is within the cap again. */
  lemma {:induction false} AddedKeeps(c: Config, w: World, row: Row, r: seq<Row>)
    requires Inv(c, w) && row.digest !in w.drawn && OnlyRevokes(w.rows + [row], r)
    requires LiveCount(r, row.user, row.backend) <= c.cap
    ensures Inv(c, w.(rows := r, drawn := w.drawn + {row.digest}))
  {
    forall u, b ensures LiveCount(r, u, b) <= c.cap {
      if u != row.user || b != row.backend {
        RevokingLowersCount(w.rows + [row], r, u, b);
        assert (w.rows + [row])[..|w.rows|] == w.rows;
      }
    }
    forall i | 0 <= i < |r| ensures r[i].digest in w.drawn + {row.digest} {
      assert r[i].digest == (w.rows + [row])[i].digest;
    }
  }

  lemma IssueKeeps(c: Config, w: World, user: string, zone: Zone, digest: Digest, guard: bool, now: int)
    requires Inv(c, w)
    ensures Inv(c, Issue(c, w, user, zone, digest, guard, now))
  {
    var row := FreshRow(c, user, zone, digest, now);
    var r := Evict(w.rows + [row], user, c.backend, c.cap);
    EvictOnlyRevokes(w.rows + [row], user, c.backend, c.cap);
    EvictionCaps(w.rows + [row], user, c.backend, c.cap);
    CountsLiveOnes(r, user, c.backend);
    if digest !in w.drawn {
      AddedKeeps(c, w, row, r);
    }
  }

  lemma RevokingKeeps(c: Config, w: World, w': World)
    requires Inv(c, w) && OnlyRevokes(w.rows, w'.rows) && w'.drawn == w.drawn
    ensures Inv(c, w')
  {
    forall u, b ensures LiveCount(w'.rows, u, b) <= c.cap {
      RevokingLowersCount(w.rows, w'.rows, u, b);
    }
  }

  lemma PurgeKeeps(c: Config, w: World, now: int)
    requires Inv(c, w)
    ensures Inv(c, w.(rows := Kept(w.rows, now)))
  {
    var r := Kept(w.rows, now);
    KeepingStaysDistinct(w.rows, now);
    forall i | 0 <= i < |r| ensures r[i].digest in w.drawn {
      assert r[i] in r;
    }
    forall u, b ensures LiveCount(r, u, b) <= c.cap {
      KeepingLowersCount(w.rows, now, u, b);
    }
  }

  lemma NextKeeps(c: Config, w: World, e: Event)
    requires Inv(c, w)
    ensures Inv(c, Next(c, w, e))
  {
    match e
    case Issuing(user, zone, digest, guard, now) => IssueKeeps(c, w, user, zone, digest, guard, now);
    case Purging(now) => PurgeKeeps(c, w, now);
    case Authenticating(digest, zone, now) => RevokingKeeps(c, w, Authenticate(c, w, digest, zone, now));
    case RevokingOne(digest) => RevokingKeeps(c, w, RevokeOne(w, digest));
    case RevokingUser(user) => RevokingKeeps(c, w, RevokeUser(w, user));
    case SetActive(_, _) =>
  }

  lemma {:induction false} RunKeeps(c: Config, w: World, events: seq<Event>)
    requires Inv(c, w)
    ensures Inv(c, Run(c, w, events))
    decreases |events|
  {
    if events != [] {
      NextKeeps(c, w, events[0]);
      RunKeeps(c, Next(c, w, events[0]), events[1..]);
    }
  }

  const EMPTY: World := World([], {}, {})

  /** No user ever holds more live sessions than the cap. */
  lemma {:induction false} CapAlwaysHolds(c: Config, events: seq<Event>, user: string, backend: Backend)
    requires c.cap >= 1
    ensures |LiveOnes(Run(c, EMPTY, events).rows, user, backend)| <= c.cap
  {
    RunKeeps(c, EMPTY, events);
    CountsLiveOnes(Run(c, EMPTY, events).rows, user, backend);
  }

  // ------------------------------------------------------------------------------------------
  // Revoked sessions stay out
  // ------------------------------------------------------------------------------------------

  /** The token was issued once and no unrevoked row is left of it. */
  ghost predicate Spent(w: World, digest: Digest) {
    digest in w.drawn && forall i :: 0 <= i < |w.rows| && w.rows[i].digest == digest ==> w.rows[i].revoked
  }

  lemma NextKeepsSpent(c: Config, w: World, e: Event, digest: Digest)
    requires Spent(w, digest)
    ensures Spent(Next(c, w, e), digest)
  {
    var w' := Next(c, w, e);
    if e.Purging? {
      forall i | 0 <= i < |w'.rows| ensures w'.rows[i].digest != digest {
        assert w'.rows[i] in w.rows;
      }
    } else if e.Issuing? {
      EvictOnlyRevokes(w.rows + [FreshRow(c, e.user, e.zone, e.digest, e.now)], e.user, c.backend, c.cap);
    }
  }

  /** Once revoked - by logout, eviction, expiry or an administrator - a session never authenticates again. */
  lemma {:induction false} RevokedStaysOut(c: Config, w: World, events: seq<Event>, digest: Digest, zone: Zone,
                                           now: int)
    requires Spent(w, digest)
    ensures !Admitted(c, Run(c, w, events), digest, zone, now)
    decreases |events|
  {
    if events != [] {
      NextKeepsSpent(c, w, events[0], digest);
      RevokedStaysOut(c, Next(c, w, events[0]), events[1..], digest, zone, now);
    }
  }

  /** Which requests spend a session: a failed authentication other than at the wrong entrance does. */
  lemma WhatSpends(c: Config, w: World, digest: Digest, zone: Zone, now: int)
    requires Inv(c, w) && digest in w.drawn
    ensures Spent(RevokeOne(w, digest), digest)
    ensures var i := Find(w.rows, digest);
            Spent(Authenticate(c, w, digest, zone, now), digest) <==> i == |w.rows| || !Valid(c, w, w.rows[i], now)
  {
    var i := Find(w.rows, digest);
    var w' := Authenticate(c, w, digest, zone, now);
    if i < |w.rows| {
      assert w'.rows[i].digest == digest;
    }
  }

  // ------------------------------------------------------------------------------------------
  // The fresh session
  // ------------------------------------------------------------------------------------------

  predicate Issues(c: Config, w: World, user: string, digest: Digest, guard: bool) {
    digest !in w.drawn && user in w.active && (c.backend.Local? ==> guard)
  }

  /** Sessions of this user that claim to have been created later than now. */
  ghost function FromTheFuture(c: Config, w: World, user: string, now: int): set<nat> {
    set i: nat |
      && i < |w.rows| && !w.rows[i].revoked && w.rows[i].user == user && w.rows[i].backend == c.backend
      && w.rows[i].created > now
  }

  /** The session just issued survives its own eviction exactly when fewer than `cap` live ones are dated later. */
  lemma FreshSurvives(c: Config, w: World, user: string, zone: Zone, digest: Digest, guard: bool, now: int)
    requires Inv(c, w) && Issues(c, w, user, digest, guard)
    ensures var w' := Issue(c, w, user, zone, digest, guard, now);
            && |w'.rows| == |w.rows| + 1 && w'.rows[|w.rows|].digest == digest
            && (!w'.rows[|w.rows|].revoked <==> |FromTheFuture(c, w, user, now)| < c.cap)
  {
    var row := FreshRow(c, user, zone, digest, now);
    var n, rows := |w.rows|, w.rows + [row];
    EvictionKeepsNewest(rows, user, c.backend, c.cap, n);
    assert NewerOnes(rows, user, c.backend, n) == FromTheFuture(c, w, user, now);
  }

  /** Two logins of one user, the second while the clock has run backwards. */
  function Backwards(user: string, zone: Zone, first: Digest, second: Digest, now: int, earlier: int): seq<Event> {
    [SetActive(user, true), Issuing(user, zone, first, true, now), Issuing(user, zone, second, true, earlier)]
  }

  /** With room for one session the second login evicts the session it has just created, and keeps the first one. */
  lemma FreshIsEvicted(c: Config, user: string, zone: Zone, first: Digest, second: Digest, now: int, earlier: int)
    requires c.cap == 1 && first != second && earlier < now
    ensures var rows := Run(c, EMPTY, Backwards(user, zone, first, second, now, earlier)).rows;
            && |rows| == 2 && rows[0].digest == first && !rows[0].revoked
            && rows[1].digest == second && rows[1].revoked
  {
    var w1 := Next(c, EMPTY, SetActive(user, true));
    var w2 := Issue(c, w1, user, zone, first, true, now);
    var w3 := Issue(c, w2, user, zone, second, true, earlier);
    var events := Backwards(user, zone, first, second, now, earlier);
    assert events[1..][1..] == [events[2]] && events[1..][1..][1..] == [];
    assert Run(c, EMPTY, events) == Run(c, w1, events[1..]) == Run(c, w2, events[1..][1..]);
    assert Run(c, w2, [events[2]]) == Run(c, w3, [events[2]][1..]) == w3;
    RunKeeps(c, EMPTY, [SetActive(user, true)]);
    assert Run(c, EMPTY, [SetActive(user, true)]) == Run(c, w1, [SetActive(user, true)][1..]) == w1;
    assert FromTheFuture(c, w1, user, now) == {};
    FreshSurvives(c, w1, user, zone, first, true, now);
    NextKeeps(c, w1, events[1]);
    FirstIsLater(c, w2, user, earlier);
    FreshSurvives(c, w2, user, zone, second, true, earlier);
    FirstIsKept(c, w2, user, zone, second, earlier);
  }

  lemma FirstIsKept(c: Config, w: World, user: string, zone: Zone, digest: Digest, earlier: int)
    requires c.cap == 1 && |w.rows| == 1 && w.rows[0].created > earlier && !w.rows[0].revoked
    ensures Evict(w.rows + [FreshRow(c, user, zone, digest, earlier)], user, c.backend, c.cap)[0] == w.rows[0]
  {
    var rows := w.rows + [FreshRow(c, user, zone, digest, earlier)];
    EvictionKeepsNewest(rows, user, c.backend, c.cap, 0);
    assert NewerOnes(rows, user, c.backend, 0) == {};
  }

  lemma FirstIsLater(c: Config, w: World, user: string, earlier: int)
    requires |w.rows| == 1 && Live(w.rows[0], user, c.backend) && w.rows[0].created > earlier
    ensures |FromTheFuture(c, w, user, earlier)| == 1
  {
    assert FromTheFuture(c, w, user, earlier) == {0};
  }

  ghost predicate CreatedBy(rows: seq<Row>, t: int) {
    forall i :: 0 <= i < |rows| ==> rows[i].created <= t
  }

  lemma NextCreatedBy(c: Config, w: World, e: Event, t: int)
    requires CreatedBy(w.rows, t) && (e.Issuing? ==> e.now <= t)
    ensures CreatedBy(Next(c, w, e).rows, t)
  {
    var w' := Next(c, w, e);
    if e.Issuing? {
      EvictOnlyRevokes(w.rows + [FreshRow(c, e.user, e.zone, e.digest, e.now)], e.user, c.backend, c.cap);
    } else if e.Purging? {
      forall i | 0 <= i < |w'.rows| ensures w'.rows[i].created <= t {
        assert w'.rows[i] in w.rows;
      }
    }
  }

  lemma {:induction false} RunCreatedBy(c: Config, w: World, events: seq<Event>, t: int)
    requires CreatedBy(w.rows, t)
    requires forall i :: 0 <= i < |events| && events[i].Issuing? ==> events[i].now <= t
    ensures CreatedBy(Run(c, w, events).rows, t)
    decreases |events|
  {
    if events != [] {
      NextCreatedBy(c, w, events[0], t);
      RunCreatedBy(c, Next(c, w, events[0]), events[1..], t);
    }
  }

  lemma SurvivorIsAdmitted(c: Config, w: World, i: nat, now: int)
    requires Inv(c, w) && i < |w.rows| && Valid(c, w, w.rows[i], now)
    ensures Admitted(c, w, w.rows[i].digest, w.rows[i].zone, now)
  {
  }

  /** With a clock that does not run backwards, a session authenticates at its entrance the moment it is issued. */
  lemma {:induction false} FreshAuthenticates(c: Config, events: seq<Event>, user: string, zone: Zone, digest: Digest,
                                              guard: bool, now: int)
    requires c.cap >= 1 && c.ttl > 0 && c.idle > 0
    requires forall i :: 0 <= i < |events| && events[i].Issuing? ==> events[i].now <= now
    requires Issues(c, Run(c, EMPTY, events), user, digest, guard)
    ensures Admitted(c, Issue(c, Run(c, EMPTY, events), user, zone, digest, guard, now), digest, zone, now)
  {
    var w := Run(c, EMPTY, events);
    RunKeeps(c, EMPTY, events);
    RunCreatedBy(c, EMPTY, events, now);
    assert FromTheFuture(c, w, user, now) == {};
    FreshIsAdmitted(c, w, user, zone, digest, guard, now);
  }

  lemma FreshIsAdmitted(c: Config, w: World, user: string, zone: Zone, digest: Digest, guard: bool, now: int)
    requires Inv(c, w) && c.ttl > 0 && c.idle > 0 && Issues(c, w, user, digest, guard)
    requires FromTheFuture(c, w, user, now) == {}
    ensures Admitted(c, Issue(c, w, user, zone, digest, guard, now), digest, zone, now)
  {
    var w' := Issue(c, w, user, zone, digest, guard, now);
    FreshSurvives(c, w, user, zone, digest, guard, now);
    EvictOnlyRevokes(w.rows + [FreshRow(c, user, zone, digest, now)], user, c.backend, c.cap);
    IssueKeeps(c, w, user, zone, digest, guard, now);
    SurvivorIsAdmitted(c, w', |w.rows|, now);
  }

  // ------------------------------------------------------------------------------------------
  // How long a session lasts
  // ------------------------------------------------------------------------------------------

  /** When the session was last authenticated successfully, `seen` before the run. */
  function LastUse(c: Config, w: World, events: seq<Event>, digest: Digest, seen: int): int
    decreases |events|
  {
    if events == [] then seen
    else LastUse(c, Next(c, w, events[0]), events[1..], digest, UsedBy(c, w, events[0], digest, seen))
  }

  function UsedBy(c: Config, w: World, e: Event, digest: Digest, seen: int): int {
    if e.Authenticating? && e.digest == digest && Admitted(c, w, digest, e.zone, e.now) then e.now else seen
  }

  /** The row of the token, if there is one, is the given one but for its revocation. */
  ghost predicate Bears(w: World, row: Row) {
    && row.digest in w.drawn
    && forall i :: 0 <= i < |w.rows| && w.rows[i].digest == row.digest ==>
         w.rows[i] == row.(revoked := w.rows[i].revoked)
  }

  lemma IssuingBears(c: Config, w: World, e: Event, row: Row)
    requires Bears(w, row) && e.Issuing?
    ensures Bears(Next(c, w, e), row)
  {
    var rows := w.rows + [FreshRow(c, e.user, e.zone, e.digest, e.now)];
    EvictOnlyRevokes(rows, e.user, c.backend, c.cap);
    var w' := Next(c, w, e);
    forall i | 0 <= i < |w'.rows| && w'.rows[i].digest == row.digest
      ensures w'.rows[i] == row.(revoked := w'.rows[i].revoked)
    {
      if w' != w {
        assert w'.rows[i] == rows[i].(revoked := w'.rows[i].revoked);
        assert i < |w.rows| && rows[i] == w.rows[i];
      }
    }
  }

  lemma NextBears(c: Config, w: World, e: Event, row: Row)
    requires Inv(c, w) && Bears(w, row)
    ensures Bears(Next(c, w, e), row.(lastSeen := UsedBy(c, w, e, row.digest, row.lastSeen)))
  {
    var w' := Next(c, w, e);
    if e.Issuing? {
      IssuingBears(c, w, e, row);
    } else if e.Purging? {
      forall i | 0 <= i < |w'.rows| && w'.rows[i].digest == row.digest
        ensures w'.rows[i] == row.(revoked := w'.rows[i].revoked)
      {
        assert w'.rows[i] in w.rows;
      }
    }
  }

  lemma {:induction false} RunBears(c: Config, w: World, events: seq<Event>, row: Row)
    requires Inv(c, w) && Bears(w, row)
    ensures Bears(Run(c, w, events), row.(lastSeen := LastUse(c, w, events, row.digest, row.lastSeen)))
    decreases |events|
  {
    if events == [] {
      assert row.(lastSeen := row.lastSeen) == row;
    } else {
      NextKeeps(c, w, events[0]);
      NextBears(c, w, events[0], row);
      RunBears(c, Next(c, w, events[0]), events[1..],
               row.(lastSeen := UsedBy(c, w, events[0], row.digest, row.lastSeen)));
    }
  }

  /** The token has its row, and it is not revoked. */
  ghost predicate Standing(w: World, digest: Digest) {
    exists i :: 0 <= i < |w.rows| && w.rows[i].digest == digest && !w.rows[i].revoked
  }

  /**
   The life of a session issued at t, over every run of logins, authentications, logouts, purges and changes of users:
   it is admitted exactly while it stands unrevoked, its user is active, now is before t + ttl and before the last
   successful authentication + idle, and the entrance is its own, unless it was issued at the development entrance.
   */
  lemma {:induction false} SessionWindow(c: Config, w: World, user: string, zone: Zone, digest: Digest, guard: bool,
                                         t: int, events: seq<Event>, at: Zone, now: int)
    requires Inv(c, w) && digest !in w.drawn && user in w.active && (c.backend.Local? ==> guard)
    ensures var w1 := Issue(c, w, user, zone, digest, guard, t);
            var w' := Run(c, w1, events);
            Admitted(c, w', digest, at, now) <==>
              && Standing(w', digest) && user in w'.active
              && now < t + c.ttl && now < LastUse(c, w1, events, digest, t) + c.idle
              && (at == zone || zone.Development?)
  {
    var row := Row(digest, user, c.backend, zone, t, t + c.ttl, t, false);
    var w1 := Issue(c, w, user, zone, digest, guard, t);
    IssueBears(c, w, user, zone, digest, guard, t);
    IssueKeeps(c, w, user, zone, digest, guard, t);
    RunBears(c, w1, events, row);
    RunKeeps(c, w1, events);
    WindowIs(c, Run(c, w1, events), row.(lastSeen := LastUse(c, w1, events, digest, t)), at, now);
  }

  lemma IssueBears(c: Config, w: World, user: string, zone: Zone, digest: Digest, guard: bool, t: int)
    requires Inv(c, w) && digest !in w.drawn && user in w.active && (c.backend.Local? ==> guard)
    ensures Bears(Issue(c, w, user, zone, digest, guard, t),
                  Row(digest, user, c.backend, zone, t, t + c.ttl, t, false))
  {
    EvictOnlyRevokes(w.rows + [FreshRow(c, user, zone, digest, t)], user, c.backend, c.cap);
  }

  lemma WindowIs(c: Config, w: World, row: Row, at: Zone, now: int)
    requires Inv(c, w) && Bears(w, row) && row.backend == c.backend
    ensures Admitted(c, w, row.digest, at, now) <==>
              && Standing(w, row.digest) && row.user in w.active
              && now < row.expires && now < row.lastSeen + c.idle && (at == row.zone || row.zone.Development?)
  {
    if Standing(w, row.digest) {
      var i :| 0 <= i < |w.rows| && w.rows[i].digest == row.digest && !w.rows[i].revoked;
      assert Find(w.rows, row.digest) == i;
    }
  }

  /**
   What an issue that is not refused makes of the table, row by row: the new row is the last one, and a row of the user
   is revoked when at least `cap` live ones are newer; no other row changes.
   */
  lemma IssueAdds(c: Config, w: World, user: string, zone: Zone, digest: Digest, guard: bool, now: int, k: nat)
    requires digest !in w.drawn && user in w.active && (c.backend.Local? ==> guard) && k <= |w.rows|
    ensures var all := w.rows + [Row(digest, user, c.backend, zone, now, now + c.ttl, now, false)];
            var w' := Issue(c, w, user, zone, digest, guard, now);
            && |w'.rows| == |w.rows| + 1
            && w'.rows[k] == if all[k].user == user && all[k].backend == c.backend
                                && |NewerOnes(all, user, c.backend, k)| >= c.cap
                             then all[k].(revoked := true) else all[k]
  {
    EvictionKeepsNewest(w.rows + [FreshRow(c, user, zone, digest, now)], user, c.backend, c.cap, k);
  }

  // ------------------------------------------------------------------------------------------
  // The object the server holds
  // ------------------------------------------------------------------------------------------

  class PersistentSessions {
    const config: Config
    var rows: seq<Row>
    var active: set<string>
    ghost var drawn: set<Digest>

    constructor (ttlSeconds: int, idleSeconds: int, maxSessionsPerUser: int, backend: Backend)
      ensures config == Config(Max(60, ttlSeconds), Max(60, idleSeconds), Max(1, maxSessionsPerUser), backend)
      ensures Now() == EMPTY && Inv(config, Now())
    {
      config := Config(Max(60, ttlSeconds), Max(60, idleSeconds), Max(1, maxSessionsPerUser), backend);
      rows, active, drawn := [], {}, {};
    }

    ghost function Now(): World
      reads this
    {
      World(rows, active, drawn)
    }

    /** Puts one row into the ORDER BY result. */
    method Insert(order: seq<nat>, i: nat) returns (placed: seq<nat>)
      requires Indices(rows, order) && i < |rows|
      ensures placed == Place(rows, order, i)
    {
      var p := 0;
      placed := [];
      while p < |order| && !Newer(rows, i, order[p])
        invariant p <= |order|
        invariant placed + Place(rows, order[p..], i) == Place(rows, order, i)
      {
        assert order[p..] == [order[p]] + order[p + 1..];
        placed := placed + [order[p]];
        p := p + 1;
      }
      placed := placed + [i] + order[p..];
    }

    /** The subquery, up to its OFFSET. */
    method Rank(user: string) returns (order: seq<nat>)
      ensures order == Ranked(rows, user, config.backend, |rows|)
    {
      order := [];
      var i := 0;
      while i < |rows|
        invariant i <= |rows| && order == Ranked(rows, user, config.backend, i)
      {
        if Live(rows[i], user, config.backend) {
          order := Insert(order, i);
        }
        i := i + 1;
      }
    }

    method RevokeRows(doomed: seq<nat>)
      requires Indices(rows, doomed)
      modifies this`rows
      ensures rows == Revoked(old(rows), doomed)
    {
      var p := 0;
      while p < |doomed|
        invariant p <= |doomed| && |rows| == |old(rows)|
        invariant forall k :: 0 <= k < |rows| ==>
                    rows[k] == if k in doomed[..p] then old(rows)[k].(revoked := true) else old(rows)[k]
      {
        assert doomed[..p + 1] == doomed[..p] + [doomed[p]];
        rows := rows[doomed[p] := rows[doomed[p]].(revoked := true)];
        p := p + 1;
      }
      assert doomed[..p] == doomed;
    }

    /** The eviction statement. */
    method EvictOldest(user: string)
      modifies this`rows
      ensures rows == Evict(old(rows), user, config.backend, config.cap)
    {
      var order := Rank(user);
      RevokeRows(if |order| <= config.cap then [] else order[config.cap..]);
    }

    /** Insert and eviction are one transaction; a refused insert leaves nothing. */
    method IssueSession(user: string, zone: Zone, digest: Digest, guard: bool, now: int) returns (ok: bool)
      requires Inv(config, Now()) && digest !in drawn
      modifies this
      ensures Inv(config, Now()) && Now() == Issue(config, old(Now()), user, zone, digest, guard, now)
      ensures ok <==> user in active && (config.backend.Local? ==> guard)
    {
      IssueKeeps(config, Now(), user, zone, digest, guard, now);
      if config.backend.Local? && !guard { return false; }
      if user !in active { return false; }
      rows := rows + [FreshRow(config, user, zone, digest, now)];
      drawn := drawn + {digest};
      EvictOldest(user);
      ok := true;
    }

    method FindDigest(digest: Digest) returns (i: nat)
      ensures i == Find(rows, digest)
    {
      i := 0;
      while i < |rows| && rows[i].digest != digest
        invariant i <= |rows| && forall k :: 0 <= k < i ==> rows[k].digest != digest
      {
        i := i + 1;
      }
    }

    method AuthenticateToken(digest: Digest, zone: Zone, now: int) returns (ok: bool)
      requires Inv(config, Now())
      modifies this`rows
      ensures Inv(config, Now()) && Now() == Authenticate(config, old(Now()), digest, zone, now)
      ensures ok <==> Admitted(config, old(Now()), digest, zone, now)
      ensures forall i :: 0 <= i < |old(rows)| && old(rows)[i].digest == digest ==>
                var row := old(rows)[i];
                var usable := !row.revoked && row.backend == config.backend && row.user in active
                              && now < row.expires && now < row.lastSeen + config.idle;
                && (ok <==> usable && (zone == row.zone || row.zone.Development?))
                && rows == old(rows)[i := if ok then row.(lastSeen := now) else row.(revoked := !usable)]
      ensures (forall i :: 0 <= i < |old(rows)| ==> old(rows)[i].digest != digest) ==> !ok && rows == old(rows)
    {
      NextKeeps(config, Now(), Authenticating(digest, zone, now));
      var i := FindDigest(digest);
      if i == |rows| { return false; }
      var row := rows[i];
      if row.revoked || row.backend != config.backend || row.expires <= now || row.lastSeen + config.idle <= now ||
         row.user !in active {
        rows := rows[i := row.(revoked := true)];
        return false;
      }
      if row.zone != zone && !row.zone.Development? { return false; }
      rows := rows[i := row.(lastSeen := now)];
      ok := true;
    }

    method RevokeToken(digest: Digest)
      requires Inv(config, Now())
      modifies this`rows
      ensures Inv(config, Now()) && Now() == RevokeOne(old(Now()), digest)
      ensures |rows| == |old(rows)|
      ensures forall k :: 0 <= k < |rows| ==>
                rows[k] == old(rows)[k].(revoked := old(rows)[k].revoked || old(rows)[k].digest == digest)
    {
      NextKeeps(config, Now(), RevokingOne(digest));
      var i, before := 0, rows;
      while i < |rows|
        invariant i <= |rows| == |before|
        invariant forall k :: 0 <= k < |rows| ==>
                    rows[k] == if k < i && before[k].digest == digest then before[k].(revoked := true) else before[k]
      {
        if rows[i].digest == digest {
          rows := rows[i := rows[i].(revoked := true)];
        }
        i := i + 1;
      }
      assert rows == RevokeOne(old(Now()), digest).rows;
    }

    method RevokeUserSessions(user: string)
      requires Inv(config, Now())
      modifies this`rows
      ensures Inv(config, Now()) && Now() == RevokeUser(old(Now()), user)
      ensures |rows| == |old(rows)|
      ensures forall k :: 0 <= k < |rows| ==>
                rows[k] == old(rows)[k].(revoked := old(rows)[k].revoked || old(rows)[k].user == user)
    {
      NextKeeps(config, Now(), RevokingUser(user));
      var i, before := 0, rows;
      while i < |rows|
        invariant i <= |rows| == |before|
        invariant forall k :: 0 <= k < |rows| ==>
                    rows[k] == if k < i && before[k].user == user then before[k].(revoked := true) else before[k]
      {
        if rows[i].user == user {
          rows := rows[i := rows[i].(revoked := true)];
        }
        i := i + 1;
      }
      assert rows == RevokeUser(old(Now()), user).rows;
    }

    method FilterKept(now: int) returns (kept: seq<Row>)
      ensures kept == Kept(rows, now) && |kept| <= |rows|
    {
      var i := 0;
      kept := [];
      while i < |rows|
        invariant i <= |rows| && kept == Kept(rows[..i], now) && |kept| <= i
      {
        KeptStep(rows[..i + 1], now);
        assert rows[..i + 1][..i] == rows[..i];
        if !rows[i].revoked && rows[i].expires > now {
          kept := kept + [rows[i]];
        }
        i := i + 1;
      }
      assert rows[..i] == rows;
    }

    method PurgeInvalid(now: int) returns (count: nat)
      requires Inv(config, Now())
      modifies this`rows
      ensures Inv(config, Now()) && Now() == Next(config, old(Now()), Purging(now))
      ensures count == |old(rows)| - |rows|
      ensures forall row :: row in rows <==> row in old(rows) && !row.revoked && row.expires > now
    {
      NextKeeps(config, Now(), Purging(now));
      var kept := FilterKept(now);
      count := |rows| - |kept|;
      rows := kept;
    }
  }
}
