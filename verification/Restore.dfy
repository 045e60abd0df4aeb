/**
 Offline verification, backup and restore of a data directory. Rows store absolute paths; a restore
 rebases them twice: from the original root to a temporary one, and from there to the destination.
 */
module Restore {
  import opened Basics
  import opened AuditChain

  /** Names from the filesystem root down. */
  type Path = seq<string>

  /** A payload row; a purged payload has no path. */
  datatype Row = Row(path: Option<Path>, size: nat, digest: Digest)

  /** A part row; `active` says that its session is uploading or completing. */
  datatype Part = Part(path: Path, size: nat, digest: Digest, active: bool)

  /** The files of a data directory by their path below its root, and its tables. */
  datatype Tree = Tree(files: map<Path, Bytes>, payloads: seq<Row>, parts: seq<Part>, log: seq<Record>)

  datatype Archive = Archive(tree: Tree, original: Path, head: Digest)

  datatype Error = Outside | Unverified | WrongHead

  datatype Result<T> = Ok(value: T) | Err(error: Error)

  predicate Inside(root: Path, path: Path) {
    root <= path
  }

  function Relative(root: Path, path: Path): Path
    requires Inside(root, path)
  {
    path[|root|..]
  }

  // ------------------------------------------------------------------------------------------
  // Verification
  // ------------------------------------------------------------------------------------------

  predicate FileOk(sha: Hash, root: Path, files: map<Path, Bytes>, path: Path, size: nat, digest: Digest) {
    && Inside(root, path) && Relative(root, path) in files
    && |files[Relative(root, path)]| == size && sha(files[Relative(root, path)]) == digest
  }

  predicate RowOk(sha: Hash, root: Path, files: map<Path, Bytes>, row: Row) {
    row.path.Some? ==> FileOk(sha, root, files, row.path.value, row.size, row.digest)
  }

  predicate PartOk(sha: Hash, root: Path, files: map<Path, Bytes>, part: Part) {
    part.active && FileOk(sha, root, files, part.path, part.size, part.digest)
  }

  /** `verify_data` accepts: the chain, every payload and every part. */
  predicate Verified(sha: Hash, h: ChainHash, root: Path, t: Tree) {
    && Chained(h, t.log)
    && (forall i :: 0 <= i < |t.payloads| ==> RowOk(sha, root, t.files, t.payloads[i]))
    && (forall i :: 0 <= i < |t.parts| ==> PartOk(sha, root, t.files, t.parts[i]))
  }

  /** The path is a file below the root, and the file has this length and this hash. */
  ghost predicate OnDisk(sha: Hash, root: Path, files: map<Path, Bytes>, path: Path, size: nat, digest: Digest) {
    && |root| <= |path| && path[..|root|] == root
    && var below := path[|root|..];
       below in files && |files[below]| == size && sha(files[below]) == digest
  }

  /** Every stored payload and every part is on disk as its row says, and no part belongs to a session that is over. */
  ghost predicate Agrees(sha: Hash, root: Path, t: Tree) {
    && (forall i :: 0 <= i < |t.payloads| && t.payloads[i].path.Some? ==>
          OnDisk(sha, root, t.files, t.payloads[i].path.value, t.payloads[i].size, t.payloads[i].digest))
    && (forall i :: 0 <= i < |t.parts| ==>
          t.parts[i].active && OnDisk(sha, root, t.files, t.parts[i].path, t.parts[i].size, t.parts[i].digest))
  }

  /** What a verified directory holds, and that nothing else is asked of it. */
  lemma VerifiedAgrees(sha: Hash, h: ChainHash, root: Path, t: Tree)
    ensures Verified(sha, h, root, t) <==> Chained(h, t.log) && Agrees(sha, root, t)
  {
    if Verified(sha, h, root, t) {
      forall i | 0 <= i < |t.payloads| && t.payloads[i].path.Some?
        ensures OnDisk(sha, root, t.files, t.payloads[i].path.value, t.payloads[i].size, t.payloads[i].digest)
      {
        assert RowOk(sha, root, t.files, t.payloads[i]);
      }
      forall i | 0 <= i < |t.parts|
        ensures t.parts[i].active
        ensures OnDisk(sha, root, t.files, t.parts[i].path, t.parts[i].size, t.parts[i].digest)
      {
        assert PartOk(sha, root, t.files, t.parts[i]);
      }
    }
  }

  /** A payload row or a part row names the file. */
  ghost predicate Named(root: Path, t: Tree, below: Path) {
    || (exists i :: 0 <= i < |t.payloads| && t.payloads[i].path == Some(root + below))
    || (exists i :: 0 <= i < |t.parts| && t.parts[i].path == root + below)
  }

  /** The directory with one file rewritten. */
  function Rewritten(t: Tree, below: Path, bytes: Bytes): Tree {
    t.(files := t.files[below := bytes])
  }

  /**
   A rewritten file is found. When one file that a row names is replaced in a verified directory, verification, a
   backup of the directory, and a restore of an archive with the file in it all refuse; or the new bytes have the
   length and the hash of the old ones.
   */
  lemma RewritingIsFound(sha: Hash, h: ChainHash, root: Path, t: Tree, below: Path, bytes: Bytes, temporary: Path,
                         destination: Path)
    requires Verified(sha, h, root, t) && Named(root, t, below)
    ensures below in t.files
    ensures var t' := Rewritten(t, below, bytes);
            || (|bytes| == |t.files[below]| && sha(bytes) == sha(t.files[below]))
            || (&& !Verified(sha, h, root, t') && Backup(sha, h, root, t').Err?
                && RestoreTo(sha, h, Archive(t', root, Head(t.log)), temporary, destination).Err?)
  {
    var t' := Rewritten(t, below, bytes);
    VerifiedAgrees(sha, h, root, t);
    VerifiedAgrees(sha, h, root, t');
    assert (root + below)[|root|..] == below;
    RestoreIsSound(sha, h, Archive(t', root, Head(t.log)), temporary, destination);
  }

  // ------------------------------------------------------------------------------------------
  // Rebasing
  // ------------------------------------------------------------------------------------------

  function Rebase(path: Path, from: Path, to: Path): Path
    requires Inside(from, path)
  {
    to + Relative(from, path)
  }

  predicate AllInside(root: Path, payloads: seq<Row>, parts: seq<Part>) {
    && (forall i :: 0 <= i < |payloads| && payloads[i].path.Some? ==> Inside(root, payloads[i].path.value))
    && (forall i :: 0 <= i < |parts| ==> Inside(root, parts[i].path))
  }

  function RebasedRow(row: Row, from: Path, to: Path): Row
    requires row.path.Some? ==> Inside(from, row.path.value)
  {
    if row.path.Some? then row.(path := Some(Rebase(row.path.value, from, to))) else row
  }

  function RebasedPart(part: Part, from: Path, to: Path): Part
    requires Inside(from, part.path)
  {
    part.(path := Rebase(part.path, from, to))
  }

  function Rebased(t: Tree, from: Path, to: Path): (r: Tree)
    requires AllInside(from, t.payloads, t.parts)
    ensures |r.payloads| == |t.payloads| && |r.parts| == |t.parts|
  {
    t.(payloads := seq(|t.payloads|, i requires 0 <= i < |t.payloads| => RebasedRow(t.payloads[i], from, to)),
       parts := seq(|t.parts|, i requires 0 <= i < |t.parts| => RebasedPart(t.parts[i], from, to)))
  }

  lemma RebasedInside(path: Path, from: Path, to: Path)
    requires Inside(from, path)
    ensures Inside(to, Rebase(path, from, to))
    ensures Relative(to, Rebase(path, from, to)) == Relative(from, path)
  {
  }

  lemma RebasedTwice(path: Path, a: Path, b: Path, c: Path)
    requires Inside(a, path)
    ensures Inside(b, Rebase(path, a, b)) && Rebase(Rebase(path, a, b), b, c) == Rebase(path, a, c)
  {
    RebasedInside(path, a, b);
  }

  lemma RebaseDistinct(p: Path, q: Path, from: Path, to: Path)
    requires Inside(from, p) && Inside(from, q)
    ensures Rebase(p, from, to) == Rebase(q, from, to) <==> p == q
  {
    RebasedInside(p, from, to);
    RebasedInside(q, from, to);
    assert p == from + Relative(from, p) && q == from + Relative(from, q);
  }

  /** Rebasing a directory that moved from one root to another neither gains nor loses verification. */
  lemma RebasedVerifies(sha: Hash, h: ChainHash, t: Tree, from: Path, to: Path)
    requires AllInside(from, t.payloads, t.parts)
    ensures AllInside(to, Rebased(t, from, to).payloads, Rebased(t, from, to).parts)
    ensures Verified(sha, h, to, Rebased(t, from, to)) <==> Verified(sha, h, from, t)
  {
    var r := Rebased(t, from, to);
    forall i | 0 <= i < |t.payloads|
      ensures RowOk(sha, to, r.files, r.payloads[i]) <==> RowOk(sha, from, t.files, t.payloads[i])
      ensures r.payloads[i].path.Some? ==> Inside(to, r.payloads[i].path.value)
    {
      if t.payloads[i].path.Some? {
        RebasedInside(t.payloads[i].path.value, from, to);
      }
    }
    forall i | 0 <= i < |t.parts|
      ensures PartOk(sha, to, r.files, r.parts[i]) <==> PartOk(sha, from, t.files, t.parts[i])
      ensures Inside(to, r.parts[i].path)
    {
      RebasedInside(t.parts[i].path, from, to);
    }
  }

  lemma VerifiedInside(sha: Hash, h: ChainHash, root: Path, t: Tree)
    requires Verified(sha, h, root, t)
    ensures AllInside(root, t.payloads, t.parts)
  {
    forall i | 0 <= i < |t.payloads| && t.payloads[i].path.Some?
      ensures Inside(root, t.payloads[i].path.value)
    {
      assert RowOk(sha, root, t.files, t.payloads[i]);
    }
    forall i | 0 <= i < |t.parts| ensures Inside(root, t.parts[i].path) {
      assert PartOk(sha, root, t.files, t.parts[i]);
    }
  }

  lemma RebasedAgain(t: Tree, a: Path, b: Path, c: Path)
    requires AllInside(a, t.payloads, t.parts)
    ensures AllInside(b, Rebased(t, a, b).payloads, Rebased(t, a, b).parts)
    ensures Rebased(Rebased(t, a, b), b, c) == Rebased(t, a, c)
  {
    forall i | 0 <= i < |t.payloads| && t.payloads[i].path.Some?
      ensures var p := t.payloads[i].path.value;
              Inside(b, Rebase(p, a, b)) && Rebase(Rebase(p, a, b), b, c) == Rebase(p, a, c)
    {
      RebasedTwice(t.payloads[i].path.value, a, b, c);
    }
    forall i | 0 <= i < |t.parts|
      ensures var p := t.parts[i].path;
              Inside(b, Rebase(p, a, b)) && Rebase(Rebase(p, a, b), b, c) == Rebase(p, a, c)
    {
      RebasedTwice(t.parts[i].path, a, b, c);
    }
    assert AllInside(b, Rebased(t, a, b).payloads, Rebased(t, a, b).parts);
    assert Rebased(Rebased(t, a, b), b, c).payloads == Rebased(t, a, c).payloads;
    assert Rebased(Rebased(t, a, b), b, c).parts == Rebased(t, a, c).parts;
  }

  // ------------------------------------------------------------------------------------------
  // Backup and restore
  // ------------------------------------------------------------------------------------------

  function Backup(sha: Hash, h: ChainHash, root: Path, t: Tree): Result<Archive> {
    if Verified(sha, h, root, t) then Ok(Archive(t, root, Head(t.log))) else Err(Unverified)
  }

  function RestoreTo(sha: Hash, h: ChainHash, a: Archive, temporary: Path, destination: Path): Result<Tree> {
    if !AllInside(a.original, a.tree.payloads, a.tree.parts) then Err(Outside)
    else
      var staged := Rebased(a.tree, a.original, temporary);
      if !Verified(sha, h, temporary, staged) then Err(Unverified)
      else if Head(staged.log) != a.head then Err(WrongHead)
      else
        VerifiedInside(sha, h, temporary, staged);
        var final := Rebased(staged, temporary, destination);
        if Verified(sha, h, destination, final) then Ok(final) else Err(Unverified)
  }

  /**
   Which archives are accepted: exactly those whose chain verifies, whose every row has its file, with the recorded
   length and hash, below the original root, and whose audit head is the manifest's. And what an accepted one yields:
   every row has its file below the destination, the files and the head are those of the archive.
   */
  lemma RestoreIsSound(sha: Hash, h: ChainHash, a: Archive, temporary: Path, destination: Path)
    ensures var r := RestoreTo(sha, h, a, temporary, destination);
            r.Ok? <==> Chained(h, a.tree.log) && Agrees(sha, a.original, a.tree) && Head(a.tree.log) == a.head
    ensures var r := RestoreTo(sha, h, a, temporary, destination);
            r.Ok? ==> && Verified(sha, h, destination, r.value) && Agrees(sha, destination, r.value)
                      && AllInside(destination, r.value.payloads, r.value.parts)
                      && Head(r.value.log) == a.head && r.value.files == a.tree.files
                      && r.value == Rebased(a.tree, a.original, destination)
  {
    VerifiedAgrees(sha, h, a.original, a.tree);
    if AllInside(a.original, a.tree.payloads, a.tree.parts) {
      RebasedVerifies(sha, h, a.tree, a.original, temporary);
      RebasedAgain(a.tree, a.original, temporary, destination);
      RebasedVerifies(sha, h, a.tree, a.original, destination);
      VerifiedAgrees(sha, h, destination, Rebased(a.tree, a.original, destination));
    } else if Verified(sha, h, a.original, a.tree) {
      VerifiedInside(sha, h, a.original, a.tree);
    }
  }

  /**
   Backup followed by restore: a verified directory comes back verified, with the same files and audit
   log, and every stored path is the destination plus the old relative path; two rows, of payloads or of parts, name
   the same path after it exactly when they did before.
   */
  lemma BackupRestoreRoundTrip(sha: Hash, h: ChainHash, root: Path, t: Tree, temporary: Path, destination: Path)
    requires Verified(sha, h, root, t)
    ensures var b := Backup(sha, h, root, t);
            && b.Ok?
            && var r := RestoreTo(sha, h, b.value, temporary, destination);
            && r.Ok? && Verified(sha, h, destination, r.value)
            && r.value.files == t.files && r.value.log == t.log
            && |r.value.payloads| == |t.payloads| && |r.value.parts| == |t.parts|
            && (forall i :: 0 <= i < |t.payloads| ==> Carried(t.payloads[i], r.value.payloads[i], root, destination))
            && (forall i :: 0 <= i < |t.parts| ==>
                  && Inside(root, t.parts[i].path)
                  && r.value.parts[i] == t.parts[i].(path := destination + Relative(root, t.parts[i].path)))
            && SameAliases(t, r.value)
  {
    VerifiedInside(sha, h, root, t);
    RestoreIsSound(sha, h, Archive(t, root, Head(t.log)), temporary, destination);
    forall i, k | 0 <= i < |Stored(t)| && 0 <= k < |Stored(t)|
      ensures var r := Rebased(t, root, destination);
              Stored(r)[i] == Stored(r)[k] <==> Stored(t)[i] == Stored(t)[k]
    {
      StoredRebased(t, root, destination, i);
      StoredRebased(t, root, destination, k);
      if Stored(t)[i].Some? && Stored(t)[k].Some? {
        RebaseDistinct(Stored(t)[i].value, Stored(t)[k].value, root, destination);
      }
    }
  }

  /** Every stored path: those of the payload rows, then those of the part rows. */
  function Stored(t: Tree): (paths: seq<Option<Path>>)
    ensures |paths| == |t.payloads| + |t.parts|
  {
    seq(|t.payloads|, i requires 0 <= i < |t.payloads| => t.payloads[i].path)
    + seq(|t.parts|, i requires 0 <= i < |t.parts| => Some(t.parts[i].path))
  }

  /** Two rows of the one tree name the same path exactly when the same two rows of the other do. */
  ghost predicate SameAliases(t: Tree, r: Tree) {
    && |Stored(t)| == |Stored(r)|
    && forall i, k :: 0 <= i < |Stored(t)| && 0 <= k < |Stored(t)| ==>
         (Stored(r)[i] == Stored(r)[k] <==> Stored(t)[i] == Stored(t)[k])
  }

  lemma StoredRebased(t: Tree, from: Path, to: Path, i: nat)
    requires AllInside(from, t.payloads, t.parts) && i < |Stored(t)|
    ensures var before, after := Stored(t)[i], Stored(Rebased(t, from, to))[i];
            if before.Some? then Inside(from, before.value) && after == Some(Rebase(before.value, from, to))
            else after.None?
  {
    if i >= |t.payloads| {
      assert Stored(t)[i] == Some(t.parts[i - |t.payloads|].path);
    }
  }

  predicate Carried(before: Row, after: Row, root: Path, destination: Path) {
    && after.size == before.size && after.digest == before.digest
    && (before.path.Some? ==>
          Inside(root, before.path.value) && after.path == Some(destination + Relative(root, before.path.value)))
    && (before.path.None? ==> after.path.None?)
  }

  /** The tables after a crash in the second rebase: the first rows are rebased, the others are not. */
  function HalfRebased(t: Tree, from: Path, to: Path, rows: nat, parts: nat): Tree
    requires AllInside(from, t.payloads, t.parts)
  {
    t.(payloads := seq(|t.payloads|, i requires 0 <= i < |t.payloads| =>
         if i < rows then RebasedRow(t.payloads[i], from, to) else t.payloads[i]),
       parts := seq(|t.parts|, i requires 0 <= i < |t.parts| =>
         if i < parts then RebasedPart(t.parts[i], from, to) else t.parts[i]))
  }

  /**
   A crash after the directory was renamed leaves it at the destination with some rows still naming the
   temporary root. It verifies exactly when no such row is left.
   */
  lemma TornRestore(sha: Hash, h: ChainHash, t: Tree, temporary: Path, destination: Path, rows: nat, parts: nat)
    requires Verified(sha, h, temporary, t) && !Inside(destination, temporary)
    requires |temporary| >= |destination|
    requires AllInside(temporary, t.payloads, t.parts)
    ensures Verified(sha, h, destination, HalfRebased(t, temporary, destination, rows, parts)) <==>
              && (forall i :: rows <= i < |t.payloads| ==> t.payloads[i].path.None?)
              && parts >= |t.parts|
  {
    var r := HalfRebased(t, temporary, destination, rows, parts);
    RebasedVerifies(sha, h, t, temporary, destination);
    forall i | 0 <= i < |t.payloads|
      ensures RowOk(sha, destination, r.files, r.payloads[i]) <==> i < rows || t.payloads[i].path.None?
    {
      assert RowOk(sha, destination, t.files, Rebased(t, temporary, destination).payloads[i]);
      if i >= rows && t.payloads[i].path.Some? {
        NotBelow(t.payloads[i].path.value, temporary, destination);
      }
    }
    forall i | 0 <= i < |t.parts|
      ensures PartOk(sha, destination, r.files, r.parts[i]) <==> i < parts
    {
      assert PartOk(sha, destination, t.files, Rebased(t, temporary, destination).parts[i]);
      if i >= parts {
        NotBelow(t.parts[i].path, temporary, destination);
      }
    }
    if Verified(sha, h, destination, r) {
      forall i | rows <= i < |t.payloads| ensures t.payloads[i].path.None? {
        assert RowOk(sha, destination, r.files, r.payloads[i]);
      }
      if |t.parts| > 0 {
        assert PartOk(sha, destination, r.files, r.parts[|t.parts| - 1]);
      }
    }
  }

  lemma NotBelow(path: Path, temporary: Path, destination: Path)
    requires Inside(temporary, path) && !Inside(destination, temporary) && |temporary| >= |destination|
    ensures !Inside(destination, path)
  {
    assert path[..|temporary|] == temporary;
    assert path[..|destination|] == temporary[..|destination|];
  }

  // ------------------------------------------------------------------------------------------
  // The operations as they run over the tables
  // ------------------------------------------------------------------------------------------

  class DataDirectory {
    const sha: Hash
    const h: ChainHash
    var place: Path
    var files: map<Path, Bytes>
    var payloads: seq<Row>
    var parts: seq<Part>
    var log: seq<Record>

    constructor (sha: Hash, h: ChainHash, place: Path, t: Tree)
      ensures this.sha == sha && this.h == h && this.place == place && Now() == t
    {
      this.sha, this.h, this.place := sha, h, place;
      files, payloads, parts, log := t.files, t.payloads, t.parts, t.log;
    }

    ghost function Now(): Tree
      reads this
    {
      Tree(files, payloads, parts, log)
    }

    method VerifyData() returns (ok: bool, head: Digest)
      ensures ok <==> Verified(sha, h, place, Now())
      ensures ok <==> Chained(h, log) && Agrees(sha, place, Now())
      ensures ok ==> head == Head(log)
    {
      VerifiedAgrees(sha, h, place, Now());
      ok, head := false, "";
      if !Chained(h, log) { return; }
      var i := 0;
      while i < |payloads|
        invariant 0 <= i <= |payloads| && forall k :: 0 <= k < i ==> RowOk(sha, place, files, payloads[k])
      {
        if payloads[i].path.Some? {
          var path := payloads[i].path.value;
          if !Inside(place, path) || Relative(place, path) !in files { return; }
          var bytes := files[Relative(place, path)];
          if |bytes| != payloads[i].size || sha(bytes) != payloads[i].digest { return; }
        }
        i := i + 1;
      }
      i := 0;
      while i < |parts|
        invariant 0 <= i <= |parts| && forall k :: 0 <= k < i ==> PartOk(sha, place, files, parts[k])
      {
        if !parts[i].active { return; }
        var path := parts[i].path;
        if !Inside(place, path) || Relative(place, path) !in files { return; }
        var bytes := files[Relative(place, path)];
        if |bytes| != parts[i].size || sha(bytes) != parts[i].digest { return; }
        i := i + 1;
      }
      ok, head := true, Head(log);
    }

    method BackUp() returns (result: Result<Archive>)
      ensures result == Backup(sha, h, place, Now())
    {
      var ok, head := VerifyData();
      if !ok { return Err(Unverified); }
      result := Ok(Archive(Tree(files, payloads, parts, log), place, head));
    }

    /** One rebase: every payload row, then every part row; refuses at the first path outside `from`. */
    method RebaseRows(from: Path, to: Path) returns (ok: bool)
      modifies this`payloads, this`parts
      ensures ok <==> AllInside(from, old(payloads), old(parts))
      ensures ok ==> Now() == Rebased(old(Now()), from, to)
    {
      var rows, i := payloads, 0;
      while i < |rows|
        invariant 0 <= i <= |rows| == |payloads| && parts == old(parts)
        invariant forall k :: 0 <= k < i && rows[k].path.Some? ==> Inside(from, rows[k].path.value)
        invariant forall k :: 0 <= k < |rows| ==>
                    payloads[k] == if k < i then RebasedRow(rows[k], from, to) else rows[k]
      {
        if rows[i].path.Some? {
          if !Inside(from, rows[i].path.value) { return false; }
          payloads := payloads[i := rows[i].(path := Some(to + Relative(from, rows[i].path.value)))];
        }
        i := i + 1;
      }
      var pieces := parts;
      ghost var rebased := payloads;
      i := 0;
      while i < |pieces|
        invariant 0 <= i <= |pieces| == |parts| && payloads == rebased
        invariant forall k :: 0 <= k < i ==> Inside(from, pieces[k].path)
        invariant forall k :: 0 <= k < |pieces| ==>
                    parts[k] == if k < i then RebasedPart(pieces[k], from, to) else pieces[k]
      {
        if !Inside(from, pieces[i].path) { return false; }
        parts := parts[i := pieces[i].(path := to + Relative(from, pieces[i].path))];
        i := i + 1;
      }
      ok := true;
      assert payloads == Rebased(old(Now()), from, to).payloads;
      assert parts == Rebased(old(Now()), from, to).parts;
    }
  }

  /** `restore`: unpack, rebase, verify, compare the head, rename, rebase again, verify again. */
  method RestoreArchive(sha: Hash, h: ChainHash, a: Archive, temporary: Path, destination: Path)
    returns (result: Result<DataDirectory>)
    ensures var r := RestoreTo(sha, h, a, temporary, destination);
            if r.Ok? then result.Ok? && result.value.place == destination && result.value.Now() == r.value
            else result.Err? && result.error == r.error
    ensures result.Ok? <==> Chained(h, a.tree.log) && Agrees(sha, a.original, a.tree) && Head(a.tree.log) == a.head
    ensures result.Ok? ==>
              && Agrees(sha, destination, result.value.Now()) && Chained(h, result.value.log)
              && result.value.files == a.tree.files && Head(result.value.log) == a.head
  {
    RestoreIsSound(sha, h, a, temporary, destination);
    var d := new DataDirectory(sha, h, temporary, a.tree);
    var inside := d.RebaseRows(a.original, temporary);
    if !inside { return Err(Outside); }
    ghost var staged := d.Now();
    var ok, head := d.VerifyData();
    if !ok { return Err(Unverified); }
    if head != a.head { return Err(WrongHead); }
    VerifiedInside(sha, h, temporary, staged);
    d.place := destination;
    inside := d.RebaseRows(temporary, destination);
    ok, head := d.VerifyData();
    result := if ok then Ok(d) else Err(Unverified);
  }
}
