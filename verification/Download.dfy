/**
 Range downloads and their resumption by the transfer agent. Header numbers are read by a parameter, of which
 only what Python's int() does with plain decimals is assumed: it reads up to 4300 digits and refuses more. A
 connection may end early.
 */
module Download {
  import opened Basics
  import Canonical

  type Reader = string -> Option<int>

  const DIGITS: nat := 4300

  predicate Readable(n: nat) {
    |Canonical.Decimal(n)| <= DIGITS
  }

  ghost predicate ReadsDecimals(read: Reader) {
    forall n: nat :: read(Canonical.Decimal(n)) == if Readable(n) then Some(n) else None
  }

  datatype Reply = Full | Partial(start: nat, end: nat) | Unsatisfiable

  const UNIT: string := "bytes="

  function ETag(digest: Digest): string {
    "\"" + digest + "\""
  }

  /** Position of the first occurrence, or the length. */
  function IndexOf(s: string, c: char): (i: nat)
    ensures i <= |s| && (i < |s| ==> s[i] == c) && forall k :: 0 <= k < i ==> s[k] != c
  {
    if s == "" || s[0] == c then 0 else 1 + IndexOf(s[1..], c)
  }

  // ------------------------------------------------------------------------------------------
  // The ranges of RFC 9110, section 14.1.2
  // ------------------------------------------------------------------------------------------

  datatype Spec = FromTo(first: nat, last: nat) | From(first: nat) | Suffix(count: nat)

  function Ends(spec: Spec): (string, string) {
    match spec
    case FromTo(a, b) => (Canonical.Decimal(a), Canonical.Decimal(b))
    case From(a) => (Canonical.Decimal(a), "")
    case Suffix(n) => ("", Canonical.Decimal(n))
  }

  function Item(spec: Spec): string {
    Ends(spec).0 + "-" + Ends(spec).1
  }

  function Written(spec: Spec): string {
    UNIT + Item(spec)
  }

  /** Every number of the range is short enough to be read. */
  predicate Legible(spec: Spec) {
    match spec
    case FromTo(a, b) => Readable(a) && Readable(b)
    case From(a) => Readable(a)
    case Suffix(n) => Readable(n)
  }

  /** The positions a range denotes in an object of the given size, or none. */
  function Selected(spec: Spec, size: nat): Reply {
    match spec
    case FromTo(a, b) => if a <= b && a < size then Partial(a, Min(b, size - 1)) else Unsatisfiable
    case From(a) => if a < size then Partial(a, size - 1) else Unsatisfiable
    case Suffix(n) => if n > 0 && size > 0 then Partial(Max(0, size - n), size - 1) else Unsatisfiable
  }

  // ------------------------------------------------------------------------------------------
  // The server
  // ------------------------------------------------------------------------------------------

  /** Text before and after the first dash, read as numbers; None where Python raises ValueError. */
  function Bounds(read: Reader, value: string, size: nat): Option<(int, int)> {
    var dash := IndexOf(value, '-');
    if dash == |value| then None
    else
      var first, last := value[..dash], value[dash + 1..];
      if first != "" then
        var a, b := read(first), if last != "" then read(last) else Some(size - 1);
        if a.None? || b.None? then None else Some((a.value, b.value))
      else
        var suffix := read(last);
        if suffix.None? || suffix.value <= 0 then None else Some((Max(0, size - suffix.value), size - 1))
  }

  predicate Applies(range: string, ifRange: string, digest: Digest) {
    range != "" && (ifRange == "" || ifRange == ETag(digest))
  }

  function RangeReply(read: Reader, range: string, size: nat): (reply: Reply)
    ensures reply.Partial? ==> reply.start <= reply.end < size
    ensures !reply.Full?
  {
    if !(UNIT <= range) || ',' in range then Unsatisfiable
    else
      var bounds := Bounds(read, range[|UNIT|..], size);
      if bounds.None? || bounds.value.0 < 0 || bounds.value.1 < bounds.value.0 || bounds.value.0 >= size
      then Unsatisfiable else Partial(bounds.value.0, Min(bounds.value.1, size - 1))
  }

  lemma DashAfter(a: string, b: string)
    requires forall i :: 0 <= i < |a| ==> a[i] != '-'
    ensures IndexOf(a + "-" + b, '-') == |a|
  {
    var i := IndexOf(a + "-" + b, '-');
    assert (a + "-" + b)[|a|] == '-';
    assert forall k :: 0 <= k < |a| ==> (a + "-" + b)[k] == a[k];
  }

  lemma BoundsOf(read: Reader, first: string, last: string, size: nat)
    requires forall i :: 0 <= i < |first| ==> first[i] != '-'
    ensures Bounds(read, first + "-" + last, size) ==
              if first != "" then
                var a, b := read(first), if last != "" then read(last) else Some(size - 1);
                if a.None? || b.None? then None else Some((a.value, b.value))
              else
                var suffix := read(last);
                if suffix.None? || suffix.value <= 0 then None else Some((Max(0, size - suffix.value), size - 1))
  {
    DashAfter(first, last);
    assert (first + "-" + last)[..|first|] == first && (first + "-" + last)[|first| + 1..] == last;
  }

  lemma EndsAreDigits(spec: Spec)
    ensures var (first, last) := Ends(spec);
            && (forall i :: 0 <= i < |first| ==> '0' <= first[i] <= '9')
            && (forall i :: 0 <= i < |last| ==> '0' <= last[i] <= '9')
  {
  }

  lemma WrittenParts(first: string, last: string)
    requires forall i :: 0 <= i < |first| ==> '0' <= first[i] <= '9'
    requires forall i :: 0 <= i < |last| ==> '0' <= last[i] <= '9'
    ensures var w := UNIT + (first + "-" + last);
            UNIT <= w && w[|UNIT|..] == first + "-" + last && ',' !in w
  {
    assert ',' !in first && ',' !in last && ',' !in UNIT;
  }

  /** A well-formed single range selects exactly the positions the standard gives it, unless a number is too long. */
  lemma RangesAreStandard(read: Reader, spec: Spec, size: nat)
    requires ReadsDecimals(read)
    ensures RangeReply(read, Written(spec), size) == if Legible(spec) then Selected(spec, size) else Unsatisfiable
  {
    var (first, last) := Ends(spec);
    EndsAreDigits(spec);
    WrittenParts(first, last);
    BoundsOf(read, first, last, size);
  }

  // ------------------------------------------------------------------------------------------
  // Every Range header: sections 14.1 and 14.2 of RFC 9110
  // ------------------------------------------------------------------------------------------

  /** A unit, which is case-insensitive, and either a list of byte ranges or what another unit says. */
  datatype Header = ByteRanges(unit: string, specs: seq<Spec>) | OtherUnit(unit: string, rest: string)

  function Lower(s: string): (r: string)
    ensures |r| == |s|
  {
    seq(|s|, i requires 0 <= i < |s| => if 'A' <= s[i] <= 'Z' then s[i] + 32 as char else s[i])
  }

  predicate WellFormed(h: Header) {
    && '=' !in h.unit
    && match h
       case ByteRanges(unit, specs) => Lower(unit) == "bytes" && specs != []
       case OtherUnit(unit, _) => Lower(unit) != "bytes"
  }

  function Listed(specs: seq<Spec>): string
    requires specs != []
  {
    if |specs| == 1 then Item(specs[0]) else Item(specs[0]) + "," + Listed(specs[1..])
  }

  function Text(h: Header): string
    requires WellFormed(h)
  {
    h.unit + "=" + match h case ByteRanges(_, specs) => Listed(specs) case OtherUnit(_, rest) => rest
  }

  /**
   What the standard lets the server answer: a unit it does not know must be ignored; a list may be ignored, and
   refused when no range of it can be satisfied; a single range is answered with its positions.
   */
  predicate Standard(h: Header, size: nat, reply: Reply) {
    match h
    case OtherUnit(_, _) => reply.Full?
    case ByteRanges(_, specs) =>
      || reply.Full?
      || (reply.Unsatisfiable? && forall k :: 0 <= k < |specs| ==> Selected(specs[k], size).Unsatisfiable?)
      || (|specs| == 1 && reply == Selected(specs[0], size))
  }

  lemma {:induction false} ListedHasComma(specs: seq<Spec>)
    requires |specs| >= 2
    ensures ',' in Listed(specs)
  {
    var first, rest := Item(specs[0]), Listed(specs[1..]);
    assert (first + "," + rest)[|first|] == ',';
  }

  lemma UnitIsBytes(unit: string, rest: string)
    requires '=' !in unit
    ensures UNIT <= unit + "=" + rest <==> unit == "bytes"
  {
    var text := unit + "=" + rest;
    assert text[|unit|] == '=' && text[..|unit|] == unit;
    assert forall i :: 0 <= i < |unit| ==> text[i] == unit[i] && text[i] != '=';
    assert UNIT == "bytes" + "=" && UNIT[5] == '=' && forall i :: 0 <= i < 5 ==> UNIT[i] != '=';
    assert UNIT <= text ==> unit == text[..5] == UNIT[..5];
  }

  /**
   Exactly which applying headers get an answer the standard does not allow: every other unit, and a satisfiable
   byte range whose unit is not in lower case, which stands in a list, or whose number is too long.
   */
  lemma DeviatesFromStandard(read: Reader, h: Header, size: nat)
    requires ReadsDecimals(read) && WellFormed(h)
    ensures !Standard(h, size, RangeReply(read, Text(h), size)) <==>
            || h.OtherUnit?
            || ((h.unit != "bytes" || |h.specs| >= 2 || !Legible(h.specs[0]))
                && exists k :: 0 <= k < |h.specs| && !Selected(h.specs[k], size).Unsatisfiable?)
  {
    if h.ByteRanges? && h.unit == "bytes" {
      BytesReply(read, h.specs, size);
    } else {
      OtherReply(read, h, size);
    }
  }

  /** Only the lower-case unit is read. */
  lemma OtherReply(read: Reader, h: Header, size: nat)
    requires WellFormed(h) && !(h.ByteRanges? && h.unit == "bytes")
    ensures RangeReply(read, Text(h), size).Unsatisfiable?
  {
    var rest := match h case ByteRanges(_, specs) => Listed(specs) case OtherUnit(_, rest) => rest;
    assert Lower("bytes") == "bytes";
    UnitIsBytes(h.unit, rest);
  }

  lemma BytesReply(read: Reader, specs: seq<Spec>, size: nat)
    requires ReadsDecimals(read) && specs != []
    ensures RangeReply(read, Text(ByteRanges("bytes", specs)), size) ==
              if |specs| == 1 && Legible(specs[0]) then Selected(specs[0], size) else Unsatisfiable
  {
    var text := Text(ByteRanges("bytes", specs));
    if |specs| >= 2 {
      ListedHasComma(specs);
      assert ',' in text;
    } else {
      assert text == Written(specs[0]);
      RangesAreStandard(read, specs[0], size);
    }
  }

  datatype Response = Response(status: int, body: Bytes)

  function Respond(read: Reader, file: Bytes, size: nat, digest: Digest, range: string, ifRange: string, head: bool)
    : Response
  {
    var reply := if Applies(range, ifRange, digest) then RangeReply(read, range, size) else Full;
    if reply.Unsatisfiable? then Response(416, [])
    else if |file| != size then Response(409, [])
    else if reply.Full? then Response(200, if head then [] else file)
    else Response(206, if head then [] else file[reply.start..reply.end + 1])
  }

  const BLOCK: nat := 1024 * 1024

  /** `respond_download`: negotiates the range, then sends the slice block by block. */
  method RespondDownload(read: Reader, file: Bytes, size: nat, digest: Digest, range: string, ifRange: string,
                         head: bool)
    returns (response: Response)
    ensures response == Respond(read, file, size, digest, range, ifRange, head)
  {
    var start: int, end: int, status := 0, size - 1, 200;
    if range != "" && (ifRange == "" || ifRange == ETag(digest)) {
      if !(UNIT <= range) || ',' in range { return Response(416, []); }
      var bounds := Bounds(read, range[|UNIT|..], size);
      if bounds.None? { return Response(416, []); }
      start, end := bounds.value.0, bounds.value.1;
      if start < 0 || end < start || start >= size { return Response(416, []); }
      end, status := Min(end, size - 1), 206;
    }
    if |file| != size { return Response(409, []); }
    if head { return Response(status, []); }
    var sent := Send(file, start, end - start + 1);
    assert status == 200 ==> file[0..size] == file;
    response := Response(status, sent);
  }

  method Send(file: Bytes, start: nat, length: nat) returns (sent: Bytes)
    requires start + length <= |file|
    ensures sent == file[start..start + length]
  {
    var remaining := length;
    sent := [];
    while remaining > 0
      invariant 0 <= remaining <= length && sent == file[start..start + length - remaining]
    {
      var position, n := start + length - remaining, Min(BLOCK, remaining);
      sent := sent + file[position..position + n];
      remaining := remaining - n;
    }
  }

  /**
   What a request gets, in every case. Without a range, or with an If-Range that is not the quoted digest, it is for the
   whole object; a well-formed range with numbers of readable length gets exactly its positions, and 416 if it has none;
   a file that has not the recorded size is refused with 409, but only after the range; HEAD gets the status alone.
   */
  lemma RangeIsServed(read: Reader, file: Bytes, size: nat, digest: Digest, spec: Option<Spec>, ifRange: string,
                      head: bool)
    requires ReadsDecimals(read) && (spec.Some? ==> Legible(spec.value))
    ensures var r := Respond(read, file, size, digest, if spec.Some? then Written(spec.value) else "", ifRange, head);
            var whole := spec.None? || (ifRange != "" && ifRange != "\"" + digest + "\"");
            var selected := if spec.Some? then Selected(spec.value, size) else Unsatisfiable;
            if !whole && selected.Unsatisfiable? then r == Response(416, [])
            else if |file| != size then r == Response(409, [])
            else if whole then r == Response(200, if head then [] else file)
            else
              && selected.Partial? && selected.start <= selected.end < size
              && r == Response(206, if head then [] else file[selected.start..selected.end + 1])
  {
    if spec.Some? {
      RangesAreStandard(read, spec.value, size);
      assert Written(spec.value)[0] == 'b';
    }
  }

  predicate IsSlice(file: Bytes, start: int, end: int, body: Bytes) {
    0 <= start <= end < |file| && body == file[start..end + 1]
  }

  /** Any request is refused or served exactly one slice of the object, never an empty one of a non-empty object. */
  lemma ServedIsSlice(read: Reader, file: Bytes, digest: Digest, range: string, ifRange: string)
    requires file != []
    ensures var r := Respond(read, file, |file|, digest, range, ifRange, false);
            || r == Response(416, [])
            || (r == Response(200, file) && !Applies(range, ifRange, digest))
            || (r.status == 206 && Applies(range, ifRange, digest)
                && exists start, end :: IsSlice(file, start, end, r.body))
  {
    if Applies(range, ifRange, digest) {
      var reply := RangeReply(read, range, |file|);
      if reply.Partial? {
        assert IsSlice(file, reply.start, reply.end, file[reply.start..reply.end + 1]);
      }
    }
  }

  // ------------------------------------------------------------------------------------------
  // The agent
  // ------------------------------------------------------------------------------------------

  /** The object's record as the server reports it. */
  datatype Remote = Remote(size: nat, digest: Digest)

  function RangeFrom(start: nat): string {
    if start > 0 then Written(From(start)) else ""
  }

  /** What the connection delivers of an answer: a prefix, when it ends early. */
  function Received(body: Bytes, cut: nat): Bytes {
    body[..Min(cut, |body|)]
  }

  datatype Outcome = Saved | TooLarge | Refused | Mismatch | Exists

  /** The partial file after the transfer: appended to on 206, rewritten otherwise. */
  function Transferred(partial: Bytes, response: Response, cut: nat): Bytes {
    if response.status == 206 && |partial| > 0 then partial + Received(response.body, cut)
    else Received(response.body, cut)
  }

  class Agent {
    const sha: Hash
    var partial: Option<Bytes>
    var output: Option<Bytes>

    constructor (sha: Hash)
      ensures this.sha == sha && partial == None && output == None
    {
      this.sha, partial, output := sha, None, None;
    }

    function Start(): nat
      reads this
    {
      if partial.Some? then |partial.value| else 0
    }

    /** Block by block behind what the file holds. */
    static method Append(before: Bytes, body: Bytes) returns (content: Bytes)
      ensures content == before + body
    {
      var k := 0;
      content := before;
      while k < |body|
        invariant 0 <= k <= |body| && content == before + body[..k]
      {
        var n := Min(BLOCK, |body| - k);
        assert body[..k + n] == body[..k] + body[k..k + n];
        content := content + body[k..k + n];
        k := k + n;
      }
      assert body[..k] == body;
    }

    /**
     `download` against a server whose answer to the range request is given. Only a file with the recorded
     size and digest becomes the output, and an interrupted transfer leaves its bytes for the next one.
     */
    method Download(remote: Remote, response: Response, cut: nat, overwrite: bool) returns (outcome: Outcome)
      modifies this
      ensures outcome.Saved? ==> output.Some? && |output.value| == remote.size && sha(output.value) == remote.digest
      ensures !outcome.Saved? ==> output == old(output)
      ensures outcome.Exists? || outcome.TooLarge? || outcome.Refused? ==> partial == old(partial)
      ensures outcome.Exists? <==> !overwrite && old(output).Some?
      ensures outcome.TooLarge? <==> !outcome.Exists? && old(Start()) > remote.size
      ensures outcome.Refused? <==> !outcome.Exists? && !outcome.TooLarge? && response.status >= 400
      ensures (overwrite || old(output).None?) && old(Start()) < remote.size && response.status < 400 ==>
                var got := Transferred(if old(partial).Some? then old(partial).value else [], response, cut);
                if |got| == remote.size && sha(got) == remote.digest
                then outcome.Saved? && output == Some(got) && partial == None
                else outcome.Mismatch? && partial == Some(got)
      ensures (overwrite || old(output).None?) && old(Start()) == remote.size && response.status < 400
              && old(partial).Some? ==>
                (outcome.Saved? <==> sha(old(partial).value) == remote.digest)
                && (!outcome.Saved? ==> partial == old(partial))
    {
      if output.Some? && !overwrite { return Exists; }
      var start := if partial.Some? then |partial.value| else 0;
      if start > remote.size { return TooLarge; }
      if response.status >= 400 { return Refused; }
      if start < remote.size {
        var append := response.status == 206 && start > 0;
        var body := Received(response.body, cut);
        var content := Append(if append then partial.value else [], body);
        assert [] + body == body;
        partial := Some(content);
      }
      if partial.None? { return Mismatch; }
      if |partial.value| != remote.size || sha(partial.value) != remote.digest { return Mismatch; }
      output, partial := partial, None;
      outcome := Saved;
    }
  }

  // ------------------------------------------------------------------------------------------
  // Resumption
  // ------------------------------------------------------------------------------------------

  /** The partial file after one attempt against the server that holds the payload, whatever its If-Range header. */
  function Attempt(read: Reader, payload: Bytes, digest: Digest, partial: Bytes, ifRange: string, cut: nat): Bytes {
    Transferred(partial, Respond(read, payload, |payload|, digest, RangeFrom(|partial|), ifRange, false), cut)
  }

  /** A transfer that breaks off after `cut` bytes. */
  datatype Try = Try(ifRange: string, cut: nat)

  function Attempts(read: Reader, payload: Bytes, digest: Digest, partial: Bytes, tries: seq<Try>): Bytes
    decreases |tries|
  {
    if tries == [] || |partial| >= |payload| then partial
    else
      var next := Attempt(read, payload, digest, partial, tries[0].ifRange, tries[0].cut);
      Attempts(read, payload, digest, next, tries[1..])
  }

  /** What the server answers an agent that holds the first bytes: the rest, or everything. */
  lemma AnswerTo(read: Reader, payload: Bytes, digest: Digest, start: nat, ifRange: string)
    requires ReadsDecimals(read) && start < |payload| && Readable(|payload|)
    ensures Respond(read, payload, |payload|, digest, RangeFrom(start), ifRange, false) ==
              if start > 0 && (ifRange == "" || ifRange == ETag(digest)) then Response(206, payload[start..])
              else Response(200, payload)
  {
    if start > 0 {
      Canonical.DecimalLength(start, |payload|);
      RangesAreStandard(read, From(start), |payload|);
      assert payload[start..|payload| - 1 + 1] == payload[start..];
    }
  }

  lemma TransferExtends(payload: Bytes, partial: Bytes, response: Response, cut: nat)
    requires partial <= payload && |partial| < |payload|
    requires response == Response(206, payload[|partial|..]) || response == Response(200, payload)
    requires response.status == 206 ==> |partial| > 0
    ensures var got := Transferred(partial, response, cut);
            got <= payload && |got| == Min(|payload|, cut + if response.status == 206 then |partial| else 0)
  {
    assert payload == partial + payload[|partial|..];
  }

  /** However often the transfer is interrupted, the partial file stays a prefix; a whole transfer completes it. */
  lemma {:induction false} ResumptionIsExact(read: Reader, payload: Bytes, digest: Digest, partial: Bytes,
                                             tries: seq<Try>)
    requires ReadsDecimals(read) && partial <= payload && Readable(|payload|)
    ensures Attempts(read, payload, digest, partial, tries) <= payload
    ensures (exists i :: 0 <= i < |tries| && tries[i].cut >= |payload|) ==>
              Attempts(read, payload, digest, partial, tries) == payload
    decreases |tries|
  {
    if tries != [] && |partial| < |payload| {
      var next := Attempt(read, payload, digest, partial, tries[0].ifRange, tries[0].cut);
      AnswerTo(read, payload, digest, |partial|, tries[0].ifRange);
      TransferExtends(payload, partial,
        Respond(read, payload, |payload|, digest, RangeFrom(|partial|), tries[0].ifRange, false), tries[0].cut);
      ResumptionIsExact(read, payload, digest, next, tries[1..]);
      if exists i :: 0 <= i < |tries| && tries[i].cut >= |payload| {
        var i :| 0 <= i < |tries| && tries[i].cut >= |payload|;
        if i > 0 {
          assert tries[1..][i - 1] == tries[i];
        }
      }
    }
  }

  /**
   Resuming from a file that is too short but wrong goes through to full size: an undisturbed transfer
   yields the object's bytes exactly when the partial file was a prefix of them. Otherwise the digest
   check rejects the result, or it has found a collision, and the wrong file of full size stays behind.
   */
  lemma WrongPrefixStaysWrong(sha: Hash, read: Reader, payload: Bytes, partial: Bytes, cut: nat)
    requires ReadsDecimals(read) && 0 < |partial| < |payload| && cut >= |payload| && Readable(|payload|)
    ensures var got := Attempt(read, payload, sha(payload), partial, ETag(sha(payload)), cut);
            |got| == |payload| && (got == payload <==> partial <= payload)
  {
    AnswerTo(read, payload, sha(payload), |partial|, ETag(sha(payload)));
    var got := Attempt(read, payload, sha(payload), partial, ETag(sha(payload)), cut);
    assert got == partial + payload[|partial|..];
    assert got[..|partial|] == partial;
    if partial <= payload {
      assert payload == partial + payload[|partial|..];
    }
  }
}
