/** The development scanner: a signature search that keeps only the last bytes of what it has read. */
module Scanner {
  import opened Basics

  /** "EICAR-STANDARD-ANTIVIRUS-TEST-FILE" in ASCII. */
  const SIGNATURE: Bytes :=
    [69, 73, 67, 65, 82, 45, 83, 84, 65, 78, 68, 65, 82, 68, 45, 65, 78, 84, 73, 86, 73, 82, 85, 83, 45,
     84, 69, 83, 84, 45, 70, 73, 76, 69]

  lemma SignatureIsText(i: nat)
    requires i < 34
    ensures |SIGNATURE| == 34 && SIGNATURE[i] as int == "EICAR-STANDARD-ANTIVIRUS-TEST-FILE"[i] as int
  {
  }

  datatype Verdict = Clean | Infected

  predicate OccursAt(needle: Bytes, hay: Bytes, i: nat) {
    i + |needle| <= |hay| && hay[i..i + |needle|] == needle
  }

  predicate Occurs(needle: Bytes, hay: Bytes) {
    exists i :: 0 <= i <= |hay| && OccursAt(needle, hay, i)
  }

  /** Python's slice [-n:], which for n = 0 is the whole. */
  function LastBytes(s: Bytes, n: nat): Bytes {
    if n == 0 || |s| <= n then s else s[|s| - n..]
  }

  lemma OccursInLonger(needle: Bytes, hay: Bytes, more: Bytes)
    requires Occurs(needle, hay)
    ensures Occurs(needle, hay + more)
  {
    var i :| 0 <= i <= |hay| && OccursAt(needle, hay, i);
    assert (hay + more)[i..i + |needle|] == hay[i..i + |needle|];
    assert OccursAt(needle, hay + more, i);
  }

  lemma OccursInSuffix(needle: Bytes, whole: Bytes, cut: nat, i: nat)
    requires cut <= i && i + |needle| <= |whole|
    ensures OccursAt(needle, whole[cut..], i - cut) <==> OccursAt(needle, whole, i)
  {
    assert whole[cut..][i - cut..i - cut + |needle|] == whole[i..i + |needle|];
  }

  lemma NotInPrefix(needle: Bytes, seen: Bytes, block: Bytes, i: nat)
    requires !Occurs(needle, seen) && OccursAt(needle, seen + block, i)
    ensures i + |needle| > |seen|
  {
    if i + |needle| <= |seen| {
      assert (seen + block)[i..i + |needle|] == seen[i..i + |needle|];
      assert OccursAt(needle, seen, i);
    }
  }

  /**
   If the needle does not occur in what was read before, it occurs in the longer text exactly when it
   occurs in the kept tail followed by the new block.
   */
  lemma TailIsEnough(needle: Bytes, seen: Bytes, block: Bytes)
    requires |needle| > 0 && !Occurs(needle, seen)
    ensures Occurs(needle, LastBytes(seen, |needle| - 1) + block) <==> Occurs(needle, seen + block)
  {
    var tail, whole := LastBytes(seen, |needle| - 1), seen + block;
    var cut := |seen| - |tail|;
    assert tail + block == whole[cut..];
    if Occurs(needle, whole[cut..]) {
      var i :| 0 <= i <= |whole[cut..]| && OccursAt(needle, whole[cut..], i);
      OccursInSuffix(needle, whole, cut, cut + i);
    }
    if Occurs(needle, whole) {
      var i :| 0 <= i <= |whole| && OccursAt(needle, whole, i);
      NotInPrefix(needle, seen, block, i);
      OccursInSuffix(needle, whole, cut, i);
    }
  }

  lemma TailOfTail(seen: Bytes, block: Bytes, n: nat)
    ensures LastBytes(LastBytes(seen, n) + block, n) == LastBytes(seen + block, n)
  {
    var tail := LastBytes(seen, n);
    assert tail + block == (seen + block)[|seen| - |tail|..];
  }

  lemma {:induction false} FoundInPrefix(needle: Bytes, blocks: seq<Bytes>, k: nat)
    requires k <= |blocks| && Occurs(needle, Flatten(blocks[..k]))
    ensures Occurs(needle, Flatten(blocks))
    decreases |blocks| - k
  {
    if k == |blocks| {
      assert blocks[..k] == blocks;
    } else {
      OccursInLonger(needle, Flatten(blocks[..k]), blocks[k]);
      FlattenSnoc(blocks[..k], blocks[k]);
      assert blocks[..k + 1] == blocks[..k] + [blocks[k]];
      FoundInPrefix(needle, blocks, k + 1);
    }
  }

  /** The loop over any split of the file into blocks, for any signature. */
  method Search(signature: Bytes, blocks: seq<Bytes>) returns (found: bool)
    requires signature != []
    ensures found <==> Occurs(signature, Flatten(blocks))
  {
    var tail: Bytes, k := [], 0;
    while k < |blocks|
      invariant k <= |blocks| && !Occurs(signature, Flatten(blocks[..k]))
      invariant tail == LastBytes(Flatten(blocks[..k]), |signature| - 1)
    {
      var combined := tail + blocks[k];
      TailIsEnough(signature, Flatten(blocks[..k]), blocks[k]);
      TailOfTail(Flatten(blocks[..k]), blocks[k], |signature| - 1);
      FlattenSnoc(blocks[..k], blocks[k]);
      assert blocks[..k + 1] == blocks[..k] + [blocks[k]];
      if Occurs(signature, combined) {
        FoundInPrefix(signature, blocks, k + 1);
        return true;
      }
      tail := LastBytes(combined, |signature| - 1);
      k := k + 1;
    }
    assert blocks[..k] == blocks;
    found := false;
  }

  /** `MockScanner.scan`: infected exactly when the signature occurs somewhere in the whole file. */
  method Scan(blocks: seq<Bytes>) returns (verdict: Verdict)
    ensures verdict.Infected? <==> Occurs(SIGNATURE, Flatten(blocks))
  {
    var found := Search(SIGNATURE, blocks);
    verdict := if found then Infected else Clean;
  }
}
