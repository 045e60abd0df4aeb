/**
 The multipart plan: a file of `total` bytes is cut into parts of `chunk` bytes, the last one
 possibly shorter. Server and agent compute the plan independently of each other.
 */
module PartPlan {
  import opened Basics

  const MIN_CHUNK: nat := 1024 * 1024
  const MAX_CHUNK: nat := 128 * 1024 * 1024

  /** The chunk size fixed when a session is created. */
  function ChunkSize(configured: int): (chunk: nat)
    ensures 1048576 <= configured <= 134217728 ==> chunk == configured
    ensures configured < 1048576 ==> chunk == 1048576
    ensures configured > 134217728 ==> chunk == 134217728
  {
    Min(Max(MIN_CHUNK, configured), MAX_CHUNK)
  }

  /** Ceiling division, as the server writes it. */
  function PartCount(total: nat, chunk: nat): nat
    requires chunk > 0
  {
    (total + chunk - 1) / chunk
  }

  function Offset(chunk: nat, number: nat): nat
    requires number >= 1
  {
    (number - 1) * chunk
  }

  function PlannedSize(total: nat, chunk: nat, number: nat): int
    requires number >= 1
  {
    Min(chunk, total - Offset(chunk, number))
  }

  /** Total planned bytes of parts 1..k. */
  function PlannedBytes(total: nat, chunk: nat, k: nat): int {
    if k == 0 then 0 else PlannedBytes(total, chunk, k - 1) + PlannedSize(total, chunk, k)
  }

  lemma CountBounds(total: nat, chunk: nat)
    requires chunk > 0
    ensures PartCount(total, chunk) * chunk >= total
    ensures total > 0 ==> PartCount(total, chunk) >= 1 && (PartCount(total, chunk) - 1) * chunk < total
    ensures total == 0 ==> PartCount(total, chunk) == 0
  {
    var n := total + chunk - 1;
    var q := n / chunk;
    assert n == q * chunk + n % chunk;
    if total > 0 {
      MulMonotone(0, q, chunk);
      assert q >= 1;
    }
  }

  lemma MulMonotone(a: int, b: int, c: nat)
    requires a <= b
    ensures a * c <= b * c
  {
    assert (b - a) * c >= 0;
  }

  lemma OffsetBelow(total: nat, chunk: nat, number: nat)
    requires chunk > 0 && 1 <= number <= PartCount(total, chunk)
    ensures Offset(chunk, number) < total
  {
    CountBounds(total, chunk);
    var last := PartCount(total, chunk);
    assert (number - 1) * chunk <= (last - 1) * chunk;
  }

  /** Each part starts where the previous one ends, no part is empty, and the last one ends the file. */
  lemma PlanTiles(total: nat, chunk: nat, number: nat)
    requires chunk > 0 && 1 <= number <= PartCount(total, chunk)
    ensures 0 < PlannedSize(total, chunk, number) <= chunk
    ensures number < PartCount(total, chunk) ==>
              Offset(chunk, number) + PlannedSize(total, chunk, number) == Offset(chunk, number + 1)
    ensures number == PartCount(total, chunk) ==>
              Offset(chunk, number) + PlannedSize(total, chunk, number) == total
  {
    OffsetBelow(total, chunk, number);
    CountBounds(total, chunk);
    assert number * chunk == Offset(chunk, number) + chunk;
    if number < PartCount(total, chunk) {
      OffsetBelow(total, chunk, number + 1);
    }
  }

  lemma {:induction false} PlannedBytesPrefix(total: nat, chunk: nat, k: nat)
    requires chunk > 0 && k <= PartCount(total, chunk)
    ensures k < PartCount(total, chunk) ==> PlannedBytes(total, chunk, k) == k * chunk
    ensures k == PartCount(total, chunk) ==> PlannedBytes(total, chunk, k) == total
  {
    CountBounds(total, chunk);
    if k > 0 {
      PlannedBytesPrefix(total, chunk, k - 1);
      PlanTiles(total, chunk, k);
    }
  }

  /** Every byte of the file lies in exactly one part. */
  lemma EveryByteInOnePart(total: nat, chunk: nat, position: nat) returns (number: nat)
    requires chunk > 0 && position < total
    ensures InPart(total, chunk, number, position)
    ensures forall other :: InPart(total, chunk, other, position) ==> other == number
  {
    CountBounds(total, chunk);
    number := PartHolding(total, chunk, position);
    forall other | InPart(total, chunk, other, position)
      ensures other == number
    {
      OnePartPerByte(total, chunk, position, number, other);
    }
  }

  predicate InPart(total: nat, chunk: nat, number: nat, position: nat)
    requires chunk > 0
  {
    && 1 <= number <= PartCount(total, chunk)
    && Offset(chunk, number) <= position < Offset(chunk, number) + PlannedSize(total, chunk, number)
  }

  lemma PartHolding(total: nat, chunk: nat, position: nat) returns (number: nat)
    requires chunk > 0 && position < total
    ensures InPart(total, chunk, number, position)
  {
    var q := position / chunk;
    assert position == q * chunk + position % chunk;
    number := q + 1;
    CountBounds(total, chunk);
    if number > PartCount(total, chunk) {
      MulMonotone(PartCount(total, chunk), q, chunk);
      assert false;
    }
    PlanTiles(total, chunk, number);
    assert number * chunk == q * chunk + chunk;
  }

  lemma OnePartPerByte(total: nat, chunk: nat, position: nat, a: nat, b: nat)
    requires chunk > 0 && InPart(total, chunk, a, position) && InPart(total, chunk, b, position)
    ensures a == b
  {
    var lower, upper := Min(a, b), Max(a, b);
    assert lower * chunk == Offset(chunk, lower) + chunk;
    if a != b {
      MulMonotone(lower, upper - 1, chunk);
    }
  }

  /** The part numbers present among 1..n, in the order the part rows are read. */
  function Ordered(present: set<nat>, n: nat): (numbers: seq<nat>)
    ensures forall k :: k in numbers <==> 1 <= k <= n && k in present
    ensures |numbers| <= n
  {
    if n == 0 then [] else Ordered(present, n - 1) + (if n in present then [n] else [])
  }

  function UpTo(n: nat): (s: seq<nat>)
    ensures |s| == n && forall i :: 0 <= i < n ==> s[i] == i + 1
  {
    seq(n, i => i + 1)
  }

  /** Bytes counted as received: the sizes of the part rows. */
  function Received(sizes: map<nat, nat>, n: nat): nat {
    if n == 0 then 0 else Received(sizes, n - 1) + (if n in sizes then sizes[n] else 0)
  }

  lemma {:induction false} OrderedFull(present: set<nat>, n: nat)
    requires |Ordered(present, n)| == n
    ensures Ordered(present, n) == UpTo(n)
  {
    if n > 0 {
      OrderedFull(present, n - 1);
      assert UpTo(n) == UpTo(n - 1) + [n];
    }
  }

  lemma {:induction false} OrderedAll(present: set<nat>, n: nat)
    requires forall k :: 1 <= k <= n ==> k in present
    ensures Ordered(present, n) == UpTo(n)
  {
    if n > 0 {
      OrderedAll(present, n - 1);
      assert UpTo(n) == UpTo(n - 1) + [n];
    }
  }

  lemma {:induction false} ReceivedBound(total: nat, chunk: nat, sizes: map<nat, nat>, n: nat)
    requires chunk > 0 && n <= PartCount(total, chunk)
    requires forall k :: k in sizes && 1 <= k <= n ==> sizes[k] == PlannedSize(total, chunk, k)
    ensures Received(sizes, n) <= PlannedBytes(total, chunk, n)
    ensures Received(sizes, n) == PlannedBytes(total, chunk, n) <==> forall k :: 1 <= k <= n ==> k in sizes
  {
    if n > 0 {
      ReceivedBound(total, chunk, sizes, n - 1);
      PlanTiles(total, chunk, n);
    }
  }

  /**
   The completion check compares a row count and a byte sum with the plan. For rows that follow
   the plan it passes exactly when no part is missing, and then the rows are read as 1..count.
   */
  lemma CompletionCheckExact(total: nat, chunk: nat, sizes: map<nat, nat>)
    requires chunk > 0
    requires forall k :: k in sizes ==> 1 <= k <= PartCount(total, chunk) && sizes[k] == PlannedSize(total, chunk, k)
    ensures var count := PartCount(total, chunk);
            (|Ordered(sizes.Keys, count)| == count && Received(sizes, count) == total)
              <==> (forall k :: 1 <= k <= count ==> k in sizes)
    ensures var count := PartCount(total, chunk);
            |Ordered(sizes.Keys, count)| == count ==> Ordered(sizes.Keys, count) == UpTo(count)
  {
    var count := PartCount(total, chunk);
    PlannedBytesPrefix(total, chunk, count);
    ReceivedBound(total, chunk, sizes, count);
    if |Ordered(sizes.Keys, count)| == count {
      OrderedFull(sizes.Keys, count);
      forall k | 1 <= k <= count ensures k in sizes {
        assert UpTo(count)[k - 1] == k;
        assert k in Ordered(sizes.Keys, count);
      }
    }
    if forall k :: 1 <= k <= count ==> k in sizes {
      OrderedAll(sizes.Keys, count);
    }
  }

  /** The bytes of staged files 1..k, concatenated. */
  function Joined(files: map<nat, Bytes>, k: nat): Bytes {
    if k == 0 then [] else Joined(files, k - 1) + (if k in files then files[k] else [])
  }

  /** The slice of the source file the agent sends as part `number`. */
  function Slice(file: Bytes, chunk: nat, number: nat): Bytes
    requires chunk > 0 && 1 <= number <= PartCount(|file|, chunk)
  {
    OffsetBelow(|file|, chunk, number);
    PlanTiles(|file|, chunk, number);
    var offset := Offset(chunk, number);
    file[offset..offset + PlannedSize(|file|, chunk, number)]
  }

  lemma JoinedSliceStep(file: Bytes, chunk: nat, k: nat)
    requires chunk > 0 && 1 <= k <= PartCount(|file|, chunk)
    ensures 0 <= PlannedBytes(|file|, chunk, k - 1) <= PlannedBytes(|file|, chunk, k) <= |file|
    ensures Slice(file, chunk, k) == file[PlannedBytes(|file|, chunk, k - 1)..PlannedBytes(|file|, chunk, k)]
  {
    PlannedBytesPrefix(|file|, chunk, k - 1);
    PlanTiles(|file|, chunk, k);
    OffsetBelow(|file|, chunk, k);
  }

  lemma {:induction false} JoinedSlicesPrefix(file: Bytes, chunk: nat, files: map<nat, Bytes>, k: nat)
    requires chunk > 0 && k <= PartCount(|file|, chunk)
    requires forall n :: 1 <= n <= k ==> n in files && files[n] == Slice(file, chunk, n)
    ensures 0 <= PlannedBytes(|file|, chunk, k) <= |file|
    ensures Joined(files, k) == file[..PlannedBytes(|file|, chunk, k)]
  {
    if k > 0 {
      JoinedSlicesPrefix(file, chunk, files, k - 1);
      JoinedSliceStep(file, chunk, k);
    }
  }

  /** When every part is the agent's slice, assembly gives the source file back byte for byte. */
  lemma AssemblyIsSource(file: Bytes, chunk: nat, files: map<nat, Bytes>)
    requires chunk > 0
    requires forall n :: 1 <= n <= PartCount(|file|, chunk) ==> n in files && files[n] == Slice(file, chunk, n)
    ensures Joined(files, PartCount(|file|, chunk)) == file
  {
    JoinedSlicesPrefix(file, chunk, files, PartCount(|file|, chunk));
    PlannedBytesPrefix(|file|, chunk, PartCount(|file|, chunk));
  }
}
