/**
 The hash-chained audit log: the verification loop, appends that commit together with the change they
 record, and what a chain head binds. The digest function is a parameter, assumed only to produce 64
 lower-case hexadecimal characters.
 */
module AuditChain {
  import opened Basics
  import opened Canonical

  /** SHA-256 of the UTF-8 encoding of a text. */
  type TextHash = string -> Digest

  /** One event as it is exported: with the hash before it and its own. */
  datatype Record = Record(event: Event, prev: Digest, hash: Digest)

  predicate IsHex(c: char) {
    '0' <= c <= '9' || 'a' <= c <= 'f'
  }

  predicate IsDigest(s: string) {
    |s| == 64 && forall i :: 0 <= i < 64 ==> IsHex(s[i])
  }

  /** Digest of an event and the hash before it. */
  type ChainHash = (Event, Digest) -> Digest

  ghost predicate MakesDigests(h: ChainHash) {
    forall e, p :: IsDigest(h(e, p))
  }

  function Preimage(e: Event, previous: Digest): string {
    previous + "\n" + Encode(e)
  }

  /** `_audit_digest`. */
  function AuditDigest(sha: TextHash): ChainHash {
    (e, previous) => sha(Preimage(e, previous))
  }

  function Head(log: seq<Record>): Digest {
    if log == [] then "" else log[|log| - 1].hash
  }

  predicate Chained(h: ChainHash, log: seq<Record>) {
    forall i :: 0 <= i < |log| ==>
      log[i].prev == Head(log[..i]) && log[i].hash == h(log[i].event, log[i].prev)
  }

  // ------------------------------------------------------------------------------------------
  // What the head binds
  // ------------------------------------------------------------------------------------------

  ghost predicate Collide(sha: TextHash, x: string, y: string) {
    x != y && sha(x) == sha(y)
  }

  predicate Hashed(log: seq<Record>, x: string) {
    exists i :: 0 <= i < |log| && x == Preimage(log[i].event, log[i].prev)
  }

  /** Two different hashed texts, one in each log, with equal digests. */
  ghost predicate Collision(sha: TextHash, a: seq<Record>, b: seq<Record>) {
    exists x, y :: Collide(sha, x, y) && Hashed(a, x) && Hashed(b, y)
  }

  lemma PreimageDetermines(e: Event, p: Digest, f: Event, q: Digest)
    requires Preimage(e, p) == Preimage(f, q)
    requires forall i :: 0 <= i < |p| ==> p[i] != '\n'
    requires forall i :: 0 <= i < |q| ==> q[i] != '\n'
    ensures e == f && p == q
  {
    var x, y := Preimage(e, p), Preimage(f, q);
    assert x[|p|] == '\n' && y[|q|] == '\n';
    assert |p| == |q|;
    assert p == x[..|p|] && q == y[..|q|];
    assert Encode(e) == x[|p| + 1..] && Encode(f) == y[|q| + 1..];
    EncodeDetermines(e, f);
  }

  lemma {:induction false} HeadShape(h: ChainHash, log: seq<Record>)
    requires MakesDigests(h) && Chained(h, log)
    ensures if log == [] then Head(log) == "" else IsDigest(Head(log))
    ensures forall i :: 0 <= i < |Head(log)| ==> Head(log)[i] != '\n'
  {
  }

  lemma {:induction false} ChainedPrefix(h: ChainHash, log: seq<Record>)
    requires Chained(h, log) && log != []
    ensures var n := |log| - 1;
            Chained(h, log[..n]) && log[n].prev == Head(log[..n])
            && log[n].hash == h(log[n].event, log[n].prev)
  {
    var n := |log| - 1;
    forall i | 0 <= i < n ensures log[..n][..i] == log[..i] {
    }
  }

  lemma {:induction false} LastRecordsAgree(sha: TextHash, a: seq<Record>, b: seq<Record>)
    requires MakesDigests(AuditDigest(sha)) && Chained(AuditDigest(sha), a) && Chained(AuditDigest(sha), b)
    requires a != [] && b != [] && Head(a) == Head(b)
    ensures Collision(sha, a, b) || (a[|a| - 1] == b[|b| - 1] && Head(a[..|a| - 1]) == Head(b[..|b| - 1]))
  {
    var x, y := a[|a| - 1], b[|b| - 1];
    ChainedPrefix(AuditDigest(sha), a);
    ChainedPrefix(AuditDigest(sha), b);
    var p, q := Preimage(x.event, x.prev), Preimage(y.event, y.prev);
    if p == q {
      HeadShape(AuditDigest(sha), a[..|a| - 1]);
      HeadShape(AuditDigest(sha), b[..|b| - 1]);
      PreimageDetermines(x.event, x.prev, y.event, y.prev);
    } else {
      assert Collide(sha, p, q) && Hashed(a, p) && Hashed(b, q);
    }
  }

  lemma {:induction false} CollisionInPrefix(sha: TextHash, a: seq<Record>, b: seq<Record>)
    requires a != [] && b != [] && Collision(sha, a[..|a| - 1], b[..|b| - 1])
    ensures Collision(sha, a, b)
  {
    HashedInPrefix(a);
    HashedInPrefix(b);
  }

  lemma {:induction false} HashedInPrefix(log: seq<Record>)
    requires log != []
    ensures forall x :: Hashed(log[..|log| - 1], x) ==> Hashed(log, x)
  {
    forall x | Hashed(log[..|log| - 1], x) ensures Hashed(log, x) {
      var i :| 0 <= i < |log| - 1 && x == Preimage(log[..|log| - 1][i].event, log[..|log| - 1][i].prev);
      assert log[i] == log[..|log| - 1][i];
    }
  }

  /**
   Two verified chains with the same head hold the same events in the same number, or two different
   texts that were hashed, one in each chain, have equal digests.
   */
  lemma {:induction false} HeadBindsChain(sha: TextHash, a: seq<Record>, b: seq<Record>)
    requires MakesDigests(AuditDigest(sha)) && Chained(AuditDigest(sha), a) && Chained(AuditDigest(sha), b)
    requires Head(a) == Head(b)
    ensures a == b || Collision(sha, a, b)
    decreases |a|
  {
    HeadShape(AuditDigest(sha), a);
    HeadShape(AuditDigest(sha), b);
    if a != [] {
      var a', b' := a[..|a| - 1], b[..|b| - 1];
      LastRecordsAgree(sha, a, b);
      if !Collision(sha, a, b) {
        ChainedPrefix(AuditDigest(sha), a);
        ChainedPrefix(AuditDigest(sha), b);
        HeadBindsChain(sha, a', b');
        if a' == b' {
          assert a == a' + [a[|a| - 1]] && b == b' + [b[|b| - 1]];
        } else {
          CollisionInPrefix(sha, a, b);
        }
      }
    }
  }

  lemma {:induction false} AppendKeepsChain(h: ChainHash, log: seq<Record>, e: Event)
    requires Chained(h, log)
    ensures Chained(h, log + [Record(e, Head(log), h(e, Head(log)))])
  {
    var log' := log + [Record(e, Head(log), h(e, Head(log)))];
    assert log'[..|log|] == log;
    forall i | 0 <= i < |log| ensures log'[..i] == log[..i] {
    }
  }

  // ------------------------------------------------------------------------------------------
  // The tables
  // ------------------------------------------------------------------------------------------

  /** A row of audit_chain. */
  datatype Link = Link(prev: Digest, hash: Digest)

  /** Event ids are primary keys, so a row per id; events are read in id order. */
  predicate Ascending(events: seq<Event>) {
    forall i, k :: 0 <= i < k < |events| ==> events[i].id < events[k].id
  }

  predicate Numbered(events: seq<Event>) {
    forall i :: 0 <= i < |events| ==> events[i].id == i + 1
  }

  /** The rows the verifier and the export read: events joined with their chain rows. */
  function Joined(events: seq<Event>, chain: map<int, Link>): (log: seq<Record>)
    requires forall i :: 0 <= i < |events| ==> events[i].id in chain
    ensures |log| == |events|
  {
    seq(|events|, i requires 0 <= i < |events| =>
      Record(events[i], chain[events[i].id].prev, chain[events[i].id].hash))
  }

  /** What verification promises of the two tables. */
  ghost predicate Intact(h: ChainHash, events: seq<Event>, chain: map<int, Link>) {
    && (forall i :: 0 <= i < |events| ==> events[i].id in chain)
    && (forall id :: id in chain ==> exists i :: 0 <= i < |events| && events[i].id == id)
    && Chained(h, Joined(events, chain))
  }

  lemma {:induction false} AscendingIdsCount(events: seq<Event>)
    requires Ascending(events)
    ensures |set i | 0 <= i < |events| :: events[i].id| == |events|
  {
    var ids := set i | 0 <= i < |events| :: events[i].id;
    if events == [] {
      assert ids == {};
    } else {
      var n := |events| - 1;
      var rest := events[..n];
      AscendingIdsCount(rest);
      var restIds := set i | 0 <= i < |rest| :: rest[i].id;
      assert ids == restIds + {events[n].id} by {
        forall x | x in ids ensures x in restIds + {events[n].id} {
          var i :| 0 <= i < |events| && events[i].id == x;
          assert i < n ==> rest[i].id == x;
        }
        forall x | x in restIds ensures x in ids {
          var i :| 0 <= i < |rest| && rest[i].id == x;
          assert events[i].id == x;
        }
      }
      assert events[n].id !in restIds;
    }
  }

  /** With one chain row per event and no more, the equal count rules out chain rows without an event. */
  lemma {:induction false} CountRulesOutExtras(events: seq<Event>, chain: map<int, Link>)
    requires Ascending(events) && forall i :: 0 <= i < |events| ==> events[i].id in chain
    ensures |chain| == |events| <==> forall id :: id in chain ==> exists i :: 0 <= i < |events| && events[i].id == id
  {
    var ids := set i | 0 <= i < |events| :: events[i].id;
    AscendingIdsCount(events);
    assert ids <= chain.Keys;
    assert |chain| == |chain.Keys|;
    if |chain| == |events| {
      SubsetOfSameSize(ids, chain.Keys);
    }
    if forall id :: id in chain ==> exists i :: 0 <= i < |events| && events[i].id == id {
      assert ids == chain.Keys;
    }
  }

  lemma SubsetOfSameSize(a: set<int>, b: set<int>)
    requires a <= b && |a| == |b|
    ensures a == b
  {
    assert b == a + (b - a);
    assert |b| == |a| + |b - a|;
  }

  lemma {:induction false} AppendedTables(h: ChainHash, events: seq<Event>, chain: map<int, Link>, e: Event, link: Link)
    requires Numbered(events) && Intact(h, events, chain) && e.id == |events| + 1
    requires var previous := Head(Joined(events, chain)); link == Link(previous, h(e, previous))
    ensures var events', chain' := events + [e], chain[e.id := link];
            && Numbered(events') && Intact(h, events', chain')
            && Joined(events', chain') == Joined(events, chain) + [Record(e, link.prev, link.hash)]
  {
    var events', chain', before := events + [e], chain[e.id := link], Joined(events, chain);
    AppendKeepsChain(h, before, e);
    assert Joined(events', chain') == before + [Record(e, link.prev, link.hash)];
    assert events'[|events|].id == e.id;
    forall id | id in chain' ensures exists i :: 0 <= i < |events'| && events'[i].id == id {
      if id != e.id {
        var i :| 0 <= i < |events| && events[i].id == id;
        assert events'[i].id == id;
      }
    }
  }

  /** A database handle: state tables of any shape, and the audit tables beside them. */
  class Store<T(0)> {
    const h: ChainHash
    var tables: T
    var events: seq<Event>
    var chain: map<int, Link>

    constructor (h: ChainHash, tables: T)
      ensures this.h == h && this.tables == tables && events == [] && chain == map[] && Valid()
    {
      this.h, this.tables, events, chain := h, tables, [], map[];
    }

    ghost predicate Valid()
      reads this
    {
      Numbered(events) && Intact(h, events, chain)
    }

    /** `_verify_audit_chain`: the count, then one pass over the joined rows. */
    method VerifyAuditChain() returns (ok: bool, count: nat, head: Digest)
      requires Ascending(events)
      ensures ok <==> Intact(h, events, chain)
      ensures ok ==> count == |events| && head == Head(Joined(events, chain))
    {
      ok, count, head := |chain| == |events|, 0, "";
      if !ok {
        if forall i :: 0 <= i < |events| ==> events[i].id in chain {
          CountRulesOutExtras(events, chain);
        }
        return;
      }
      while count < |events|
        invariant count <= |events|
        invariant forall i :: 0 <= i < count ==> events[i].id in chain
        invariant Chained(h, Joined(events[..count], chain))
        invariant head == Head(Joined(events[..count], chain))
      {
        var event := events[count];
        ghost var before := Joined(events[..count], chain);
        var expected := h(event, head);
        if event.id !in chain || chain[event.id].prev != head || chain[event.id].hash != expected {
          if event.id in chain {
            NotChained(h, events, chain, count);
          }
          return false, count, head;
        }
        AppendKeepsChain(h, before, event);
        assert Joined(events[..count + 1], chain) == before + [Record(event, head, expected)];
        head := expected;
        count := count + 1;
      }
      assert events[..count] == events;
      CountRulesOutExtras(events, chain);
    }

    /** `_append_audit`: the previous hash is that of the chain row with the highest id. */
    method AppendAudit(e: Event)
      requires Valid() && e.id == |events| + 1
      modifies this`events, this`chain
      ensures Valid() && events == old(events) + [e]
      ensures Joined(events, chain) == old(Joined(events, chain)) +
                [Record(e, Head(old(Joined(events, chain))), h(e, Head(old(Joined(events, chain)))))]
    {
      ghost var before := Joined(events, chain);
      var previous := "";
      if |events| > 0 {
        assert events[|events| - 1].id == |events|;
        previous := chain[|events|].hash;
      }
      assert previous == Head(before);
      var digest := h(e, previous);
      AppendedTables(h, events, chain, e, Link(previous, digest));
      events := events + [e];
      chain := chain[e.id := Link(previous, digest)];
    }

    /**
     `execute_audited`: one statement and its event commit together or not at all. The statement is given
     as the tables after it and its row count; `appendFails` is any failure while the event is written.
     */
    method ExecuteAudited(after: T, rowcount: nat, e: Event, appendFails: bool) returns (ok: bool)
      requires Valid() && e.id == |events| + 1
      modifies this
      ensures Valid() && ok == (rowcount == 1 && !appendFails)
      ensures if ok then tables == after && events == old(events) + [e]
              else tables == old(tables) && events == old(events) && chain == old(chain)
    {
      var beforeTables := tables;
      tables := after;
      if rowcount != 1 || appendFails {
        tables := beforeTables;
        return false;
      }
      AppendAudit(e);
      ok := true;
    }

    /** `execute_audited_counted`: housekeeping that touched no row leaves no event. */
    method ExecuteAuditedCounted(after: T, rowcount: nat, e: Event, appendFails: bool) returns (ok: bool)
      requires Valid() && e.id == |events| + 1 && (rowcount == 0 ==> after == tables)
      modifies this
      ensures Valid() && ok == (rowcount == 0 || !appendFails)
      ensures if ok then tables == after && events == (if rowcount == 0 then old(events) else old(events) + [e])
              else tables == old(tables) && events == old(events) && chain == old(chain)
    {
      var beforeTables := tables;
      tables := after;
      if rowcount == 0 { return true; }
      if appendFails {
        tables := beforeTables;
        return false;
      }
      AppendAudit(e);
      ok := true;
    }
  }

  lemma {:induction false} NotChained(h: ChainHash, events: seq<Event>, chain: map<int, Link>, n: nat)
    requires n < |events| && forall i :: 0 <= i <= n ==> events[i].id in chain
    requires var head := Head(Joined(events[..n], chain));
             var link := chain[events[n].id];
             link.prev != head || link.hash != h(events[n], head)
    ensures !Intact(h, events, chain)
  {
    if forall i :: 0 <= i < |events| ==> events[i].id in chain {
      assert Joined(events, chain)[..n] == Joined(events[..n], chain);
      assert Joined(events, chain)[n].event == events[n];
    }
  }
}
