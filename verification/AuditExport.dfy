/**
 The offline export of the audit log and its independent streaming verifier. JSON text is read and
 written by parameters; the verifier's own decisions, line by line, are modelled in full.
 */
module AuditExport {
  import opened Basics
  import opened Canonical
  import opened AuditChain

  /** Member names the verifier knows, and any other. */
  datatype Key =
    | Format | EventKey | PrevHash | EventHash
    | Id | Timestamp | RequestId | Actor | Action | ObjectId | Outcome | SourceZone | RemoteAddr | Details
    | Other(name: string)

  datatype Json =
    | JNull | JBool(b: bool) | JInt(i: int) | JReal(r: real) | JStr(s: string)
    | JArr(items: seq<Json>) | JObj(fields: map<Key, Json>)

  const RECORD_KEYS: set<Key> := {Format, EventKey, PrevHash, EventHash}

  const EVENT_KEYS: set<Key> :=
    {Id, Timestamp, RequestId, Actor, Action, ObjectId, Outcome, SourceZone, RemoteAddr, Details}

  const LINE_LIMIT: nat := 2 * 1024 * 1024

  const NEWLINE: Byte := 10

  /** `parse` decodes and loads a line, `loads` a text; `render` dumps a record and ends it with a newline. */
  datatype Codec = Codec(digest: ChainHash, fileSha: Hash, parse: Bytes -> Option<Json>, loads: string -> Option<Json>,
                         render: Record -> Bytes)

  function EventDocument(e: Event): Json {
    JObj(map[Id := JInt(e.id), Timestamp := JInt(e.timestamp), RequestId := JStr(e.requestId), Actor := JStr(e.actor),
             Action := JStr(e.action), ObjectId := if e.objectId.Some? then JStr(e.objectId.value) else JNull,
             Outcome := JStr(e.outcome), SourceZone := JStr(e.sourceZone), RemoteAddr := JStr(e.remoteAddr),
             Details := JStr(e.details)])
  }

  function Document(r: Record): Json {
    JObj(map[Format := JInt(1), EventKey := EventDocument(r.event), PrevHash := JStr(r.prev),
             EventHash := JStr(r.hash)])
  }

  /** What the exporter's dump and the verifier's load owe each other, and the shape of hex digests. */
  ghost predicate Faithful(c: Codec) {
    && MakesDigests(c.digest) && (forall b :: IsDigest(c.fileSha(b)))
    && forall r :: OneLine(c.render(r)) && c.parse(c.render(r)) == Some(Document(r))
  }

  predicate OneLine(line: Bytes) {
    line != [] && line[|line| - 1] == NEWLINE && forall i :: 0 <= i < |line| - 1 ==> line[i] != NEWLINE
  }

  datatype Error =
    | BadExpectation | Excessive | Truncated | InvalidJson | BadFormat | BadFields | BadSequence | BadTypes | BadDetails
    | BadLinkage | BadHash | WrongFile | WrongHead | WrongCount

  datatype Result<T> = Ok(value: T) | Err(error: Error)

  datatype Progress = Progress(head: Digest, count: nat, previousId: int)

  datatype Summary = Summary(events: nat, head: Digest, file: Digest)

  const BEGINNING: Progress := Progress("", 0, 0)

  // ------------------------------------------------------------------------------------------
  // One line
  // ------------------------------------------------------------------------------------------

  /** Python's `!= 1`: the boolean and the float are equal to the integer. */
  predicate IsOne(j: Json) {
    j == JInt(1) || j == JBool(true) || j == JReal(1.0)
  }

  predicate StringOrNull(j: Json) {
    j.JStr? || j.JNull?
  }

  predicate Typed(f: map<Key, Json>)
    requires f.Keys == EVENT_KEYS
  {
    && f[Timestamp].JInt? && f[Timestamp].i >= 0
    && f[RequestId].JStr? && f[Actor].JStr? && f[Action].JStr? && f[Outcome].JStr? && f[SourceZone].JStr?
    && f[RemoteAddr].JStr? && f[Details].JStr? && StringOrNull(f[ObjectId])
  }

  function EventOf(f: map<Key, Json>): Event
    requires f.Keys == EVENT_KEYS && f[Id].JInt? && Typed(f)
  {
    Event(f[Id].i, f[Timestamp].i, f[RequestId].s, f[Actor].s, f[Action].s,
          if f[ObjectId].JStr? then Some(f[ObjectId].s) else None,
          f[Outcome].s, f[SourceZone].s, f[RemoteAddr].s, f[Details].s)
  }

  /** The record a line holds, whatever the chain says. */
  function Decoded(c: Codec, line: Bytes): Result<Record> {
    var doc := c.parse(line);
    if doc.None? then Err(InvalidJson)
    else if !doc.value.JObj? || doc.value.fields.Keys != RECORD_KEYS then Err(BadFormat)
    else
      var d := doc.value.fields;
      if !IsOne(d[Format]) || !d[EventKey].JObj? then Err(BadFormat)
      else if d[EventKey].fields.Keys != EVENT_KEYS then Err(BadFields)
      else
        var f := d[EventKey].fields;
        if !f[Id].JInt? then Err(BadSequence)
        else if !Typed(f) || !d[PrevHash].JStr? || !d[EventHash].JStr? then Err(BadTypes)
        else Ok(Record(EventOf(f), d[PrevHash].s, d[EventHash].s))
  }

  /** The checks of one iteration, in the verifier's order. */
  function CheckLine(c: Codec, st: Progress, line: Bytes): Result<Progress> {
    if |line| > LINE_LIMIT then Err(Excessive)
    else if line == [] || line[|line| - 1] != NEWLINE then Err(Truncated)
    else
      var doc := c.parse(line);
      if doc.None? then Err(InvalidJson)
      else if !doc.value.JObj? || doc.value.fields.Keys != RECORD_KEYS then Err(BadFormat)
      else
        var d := doc.value.fields;
        if !IsOne(d[Format]) || !d[EventKey].JObj? then Err(BadFormat)
        else if d[EventKey].fields.Keys != EVENT_KEYS then Err(BadFields)
        else CheckEvent(c, st, d[EventKey].fields, d[PrevHash], d[EventHash])
  }

  function CheckEvent(c: Codec, st: Progress, f: map<Key, Json>, prev: Json, hash: Json): Result<Progress>
    requires f.Keys == EVENT_KEYS
  {
    if !f[Id].JInt? || f[Id].i != st.previousId + 1 then Err(BadSequence)
    else if !Typed(f) then Err(BadTypes)
    else
      var detail := c.loads(f[Details].s);
      if detail.None? || !detail.value.JObj? then Err(BadDetails)
      else if prev != JStr(st.head) || !hash.JStr? || !IsDigest(hash.s) then Err(BadLinkage)
      else if hash.s != c.digest(EventOf(f), st.head) then Err(BadHash)
      else Ok(Progress(hash.s, st.count + 1, f[Id].i))
  }

  type Check = (Progress, Bytes) -> Result<Progress>

  function Checker(c: Codec): Check {
    (st, line) => CheckLine(c, st, line)
  }

  function Fold(check: Check, st: Progress, lines: seq<Bytes>): Result<Progress>
    decreases |lines|
  {
    if lines == [] then Ok(st)
    else
      var r := check(st, lines[0]);
      if r.Err? then r else Fold(check, r.value, lines[1..])
  }

  // ------------------------------------------------------------------------------------------
  // The file
  // ------------------------------------------------------------------------------------------

  /** Length of the first line, its newline included. */
  function LineLength(file: Bytes): (n: nat)
    requires file != []
    ensures 1 <= n <= |file|
    ensures forall i :: 0 <= i < n - 1 ==> file[i] != NEWLINE
    ensures n < |file| ==> file[n - 1] == NEWLINE
  {
    if file[0] == NEWLINE || |file| == 1 then 1 else 1 + LineLength(file[1..])
  }

  function Lines(file: Bytes): seq<Bytes>
    decreases |file|
  {
    if file == [] then [] else [file[..LineLength(file)]] + Lines(file[LineLength(file)..])
  }

  function Conclude(c: Codec, file: Bytes, r: Result<Progress>, expectedFile: string, expectedHead: string,
                    expectedEvents: Option<int>): Result<Summary> {
    if r.Err? then Err(r.error)
    else if expectedFile != "" && c.fileSha(file) != expectedFile then Err(WrongFile)
    else if expectedHead != "" && r.value.head != expectedHead then Err(WrongHead)
    else if expectedEvents.Some? && r.value.count != expectedEvents.value then Err(WrongCount)
    else Ok(Summary(r.value.count, r.value.head, c.fileSha(file)))
  }

  predicate Expectable(expectedFile: string, expectedHead: string, expectedEvents: Option<int>) {
    && (expectedFile == "" || IsDigest(expectedFile)) && (expectedHead == "" || IsDigest(expectedHead))
    && (expectedEvents.Some? ==> expectedEvents.value >= 0)
  }

  function Verify(c: Codec, file: Bytes, expectedFile: string, expectedHead: string, expectedEvents: Option<int>)
    : Result<Summary>
  {
    if !Expectable(expectedFile, expectedHead, expectedEvents) then Err(BadExpectation)
    else Conclude(c, file, Fold(Checker(c), BEGINNING, Lines(file)), expectedFile, expectedHead, expectedEvents)
  }

  function FirstLine(file: Bytes, pos: nat): (line: Bytes)
    requires pos < |file|
    ensures 0 < |line| <= |file| - pos
  {
    file[pos..pos + LineLength(file[pos..])]
  }

  lemma LinesStep(file: Bytes, pos: nat)
    requires pos < |file|
    ensures var line := FirstLine(file, pos);
            Lines(file[pos..]) == [line] + Lines(file[pos + |line|..])
  {
    var n := LineLength(file[pos..]);
    assert file[pos..][..n] == file[pos..pos + n] && file[pos..][n..] == file[pos + n..];
  }

  lemma {:induction false} FoldStep(check: Check, st: Progress, line: Bytes, lines: seq<Bytes>)
    ensures var r := check(st, line);
            Fold(check, st, [line] + lines) == if r.Err? then r else Fold(check, r.value, lines)
  {
    assert ([line] + lines)[1..] == lines;
  }

  lemma StreamStep(check: Check, st: Progress, file: Bytes, pos: nat)
    requires pos < |file|
    ensures var line := FirstLine(file, pos);
            var r := check(st, line);
            Fold(check, st, Lines(file[pos..])) ==
              if r.Err? then r else Fold(check, r.value, Lines(file[pos + |line|..]))
  {
    var line := FirstLine(file, pos);
    LinesStep(file, pos);
    FoldStep(check, st, line, Lines(file[pos + |line|..]));
  }

  ghost predicate CutAt(file: Bytes, pos: nat, limit: nat, line: Bytes)
    requires pos < |file|
  {
    if |FirstLine(file, pos)| <= limit then line == FirstLine(file, pos) else |line| == limit
  }

  /** One read of at most `limit` bytes, stopping after a newline. */
  method ReadLine(file: Bytes, pos: nat, limit: nat) returns (line: Bytes)
    requires pos < |file| && limit > 0
    ensures CutAt(file, pos, limit, line)
  {
    var n := 1;
    ghost var rest := file[pos..];
    while n < limit && pos + n < |file| && file[pos + n - 1] != NEWLINE
      invariant 1 <= n <= limit && pos + n <= |file|
      invariant forall i :: 0 <= i < n - 1 ==> rest[i] != NEWLINE
    {
      n := n + 1;
    }
    if n < LineLength(rest) {
      assert rest[n - 1] != NEWLINE;
    }
    line := file[pos..pos + n];
  }

  ghost predicate RefusesExcess(check: Check) {
    forall st, line :: |line| > LINE_LIMIT ==> check(st, line) == Err(Excessive)
  }

  /** A line cut at the limit is as excessive as the whole line would be. */
  lemma CutLineStep(check: Check, st: Progress, file: Bytes, pos: nat, line: Bytes)
    requires pos < |file| && CutAt(file, pos, LINE_LIMIT + 1, line) && RefusesExcess(check)
    ensures var r := check(st, line);
            && (r.Ok? ==> pos < pos + |line| <= |file|)
            && (r.Err? ==> Fold(check, st, Lines(file[pos..])) == r)
            && (r.Ok? ==> Fold(check, st, Lines(file[pos..])) == Fold(check, r.value, Lines(file[pos + |line|..])))
  {
    CutLineAnswers(check, st, FirstLine(file, pos), line);
    StreamStep(check, st, file, pos);
  }

  lemma CutLineAnswers(check: Check, st: Progress, first: Bytes, line: Bytes)
    requires RefusesExcess(check)
    requires if |first| <= LINE_LIMIT + 1 then line == first else |line| == LINE_LIMIT + 1
    ensures check(st, line) == check(st, first)
    ensures check(st, line).Ok? ==> line == first
  {
  }

  /** Reads and checks one line. */
  method CheckNext(check: Check, st: Progress, file: Bytes, pos: nat) returns (r: Result<Progress>, next: nat)
    requires pos < |file| && RefusesExcess(check)
    ensures r.Ok? ==> pos < next <= |file|
    ensures r.Err? ==> Fold(check, st, Lines(file[pos..])) == r
    ensures r.Ok? ==> Fold(check, st, Lines(file[pos..])) == Fold(check, r.value, Lines(file[next..]))
  {
    var line := ReadLine(file, pos, LINE_LIMIT + 1);
    CutLineStep(check, st, file, pos, line);
    r, next := check(st, line), pos + |line|;
  }

  method CheckStream(check: Check, file: Bytes) returns (r: Result<Progress>)
    requires RefusesExcess(check)
    ensures r == Fold(check, BEGINNING, Lines(file))
  {
    r := Ok(BEGINNING);
    var pos := 0;
    assert file[0..] == file;
    while pos < |file|
      invariant pos <= |file| && r.Ok?
      invariant Fold(check, r.value, Lines(file[pos..])) == Fold(check, BEGINNING, Lines(file))
    {
      r, pos := CheckNext(check, r.value, file, pos);
      if r.Err? { return; }
    }
    assert file[pos..] == [];
  }

  /** `verify_audit_export`. */
  method VerifyAuditExport(c: Codec, file: Bytes, expectedFile: string, expectedHead: string,
                           expectedEvents: Option<int>)
    returns (result: Result<Summary>)
    ensures result == Verify(c, file, expectedFile, expectedHead, expectedEvents)
  {
    if !Expectable(expectedFile, expectedHead, expectedEvents) { return Err(BadExpectation); }
    var checked := CheckStream(Checker(c), file);
    result := Conclude(c, file, checked, expectedFile, expectedHead, expectedEvents);
  }

  /** `export_audit` of a verified log. */
  method ExportAudit(c: Codec, log: seq<Record>) returns (file: Bytes, count: nat)
    ensures file == Flatten(Rendered(c, log)) && count == |log|
  {
    file, count := [], 0;
    while count < |log|
      invariant count <= |log| && file == Flatten(Rendered(c, log[..count]))
    {
      FlattenSnoc(Rendered(c, log[..count]), c.render(log[count]));
      assert Rendered(c, log[..count + 1]) == Rendered(c, log[..count]) + [c.render(log[count])];
      file := file + c.render(log[count]);
      count := count + 1;
    }
    assert log[..count] == log;
  }

  function Rendered(c: Codec, log: seq<Record>): (lines: seq<Bytes>)
    ensures |lines| == |log|
  {
    seq(|log|, i requires 0 <= i < |log| => c.render(log[i]))
  }

  // ------------------------------------------------------------------------------------------
  // Splitting what was written
  // ------------------------------------------------------------------------------------------

  lemma LineOfConcat(line: Bytes, rest: Bytes)
    requires OneLine(line)
    ensures LineLength(line + rest) == |line|
  {
    var n := LineLength(line + rest);
    assert (line + rest)[|line| - 1] == NEWLINE;
    assert forall i :: 0 <= i < |line| - 1 ==> (line + rest)[i] == line[i];
  }

  lemma {:induction false} FlattenCons(line: Bytes, lines: seq<Bytes>)
    ensures Flatten([line] + lines) == line + Flatten(lines)
  {
    if lines == [] {
      assert [line] + lines == [] + [line];
      FlattenSnoc([], line);
    } else {
      var n := |lines| - 1;
      assert [line] + lines == ([line] + lines[..n]) + [lines[n]];
      FlattenSnoc([line] + lines[..n], lines[n]);
      FlattenCons(line, lines[..n]);
    }
  }

  lemma {:induction false} LinesOfFlatten(lines: seq<Bytes>)
    requires forall i :: 0 <= i < |lines| ==> OneLine(lines[i])
    ensures Lines(Flatten(lines)) == lines
  {
    if lines != [] {
      var rest := Flatten(lines[1..]);
      assert lines == [lines[0]] + lines[1..];
      FlattenCons(lines[0], lines[1..]);
      LineOfConcat(lines[0], rest);
      assert (lines[0] + rest)[..|lines[0]|] == lines[0] && (lines[0] + rest)[|lines[0]|..] == rest;
      LinesOfFlatten(lines[1..]);
    }
  }

  // ------------------------------------------------------------------------------------------
  // Round trip
  // ------------------------------------------------------------------------------------------

  /** What the verifier asks of a record beyond the chain itself. */
  predicate Exportable(c: Codec, r: Record, number: int) {
    && r.event.id == number && r.event.timestamp >= 0 && |c.render(r)| <= LINE_LIMIT
    && c.loads(r.event.details).Some? && c.loads(r.event.details).value.JObj?
  }

  lemma RenderedLineChecks(c: Codec, st: Progress, r: Record)
    requires Faithful(c) && r.prev == st.head && r.hash == c.digest(r.event, r.prev)
    ensures CheckLine(c, st, c.render(r)).Ok? <==> Exportable(c, r, st.previousId + 1)
    ensures Exportable(c, r, st.previousId + 1) ==>
              CheckLine(c, st, c.render(r)) == Ok(Progress(r.hash, st.count + 1, r.event.id))
  {
    assert OneLine(c.render(r)) && c.parse(c.render(r)) == Some(Document(r));
    EventReadsBack(r.event);
  }

  lemma EventReadsBack(e: Event)
    ensures var f := EventDocument(e).fields;
            f.Keys == EVENT_KEYS && f[Id].JInt? && (Typed(f) <==> e.timestamp >= 0)
            && (e.timestamp >= 0 ==> EventOf(f) == e)
  {
  }

  predicate Steps(check: Check, st: Progress, line: Bytes, good: bool, st': Progress) {
    if good then check(st, line) == Ok(st') else check(st, line).Err?
  }

  lemma {:induction false} FoldThrough(check: Check, states: seq<Progress>, lines: seq<Bytes>, good: seq<bool>, k: nat)
    requires |good| == |lines| && |states| == |lines| + 1 && k <= |lines|
    requires forall i :: 0 <= i < |lines| ==> Steps(check, states[i], lines[i], good[i], states[i + 1])
    ensures if forall i :: k <= i < |good| ==> good[i] then Fold(check, states[k], lines[k..]) == Ok(states[|lines|])
            else Fold(check, states[k], lines[k..]).Err?
    decreases |lines| - k
  {
    if k < |lines| {
      assert lines[k..] == [lines[k]] + lines[k + 1..];
      FoldStep(check, states[k], lines[k], lines[k + 1..]);
      FoldThrough(check, states, lines, good, k + 1);
    }
  }

  function StateAfter(log: seq<Record>, i: nat): Progress
    requires i <= |log|
  {
    Progress(Head(log[..i]), i, i)
  }

  lemma {:induction false} RenderedSteps(c: Codec, log: seq<Record>, i: nat)
    requires Faithful(c) && Chained(c.digest, log) && i < |log|
    ensures Steps(Checker(c), StateAfter(log, i), c.render(log[i]), Exportable(c, log[i], i + 1),
                  StateAfter(log, i + 1))
  {
    RenderedLineChecks(c, StateAfter(log, i), log[i]);
    assert Head(log[..i + 1]) == log[i].hash;
  }

  function States(log: seq<Record>): (states: seq<Progress>)
    ensures |states| == |log| + 1
  {
    seq(|log| + 1, i requires 0 <= i <= |log| => StateAfter(log, i))
  }

  function Verdicts(c: Codec, log: seq<Record>): (good: seq<bool>)
    ensures |good| == |log|
  {
    seq(|log|, i requires 0 <= i < |log| => Exportable(c, log[i], i + 1))
  }

  ghost predicate StepsThrough(check: Check, states: seq<Progress>, lines: seq<Bytes>, good: seq<bool>) {
    && |good| == |lines| && |states| == |lines| + 1
    && forall i :: 0 <= i < |lines| ==> Steps(check, states[i], lines[i], good[i], states[i + 1])
  }

  lemma {:induction false} AllRenderedSteps(c: Codec, log: seq<Record>)
    requires Faithful(c) && Chained(c.digest, log)
    ensures StepsThrough(Checker(c), States(log), Rendered(c, log), Verdicts(c, log))
  {
    forall i | 0 <= i < |log|
      ensures Steps(Checker(c), States(log)[i], Rendered(c, log)[i], Verdicts(c, log)[i], States(log)[i + 1])
    {
      RenderedSteps(c, log, i);
    }
  }

  lemma {:induction false} FoldWhole(check: Check, states: seq<Progress>, lines: seq<Bytes>, good: seq<bool>)
    requires StepsThrough(check, states, lines, good)
    ensures if forall i :: 0 <= i < |good| ==> good[i] then Fold(check, states[0], lines) == Ok(states[|lines|])
            else Fold(check, states[0], lines).Err?
  {
    FoldThrough(check, states, lines, good, 0);
    assert lines[0..] == lines;
  }

  lemma {:induction false} FoldRendered(c: Codec, log: seq<Record>)
    requires Faithful(c) && Chained(c.digest, log)
    ensures var r := Fold(Checker(c), BEGINNING, Rendered(c, log));
            if forall i :: 0 <= i < |log| ==> Exportable(c, log[i], i + 1)
            then r == Ok(Progress(Head(log), |log|, |log|)) else r.Err?
  {
    var good := Verdicts(c, log);
    AllRenderedSteps(c, log);
    FoldWhole(Checker(c), States(log), Rendered(c, log), good);
    assert log[..|log|] == log;
    if forall i :: 0 <= i < |good| ==> good[i] {
      forall i | 0 <= i < |log| ensures Exportable(c, log[i], i + 1) {
        assert good[i];
      }
    }
  }

  /**
   Exporting a verified log and verifying the file succeeds, with the log's count and head, even when
   those and the file digest are demanded; it succeeds exactly when the ids run from 1, times are not
   negative, details are JSON objects and every line fits.
   */
  lemma {:induction false} ExportRoundTrip(c: Codec, log: seq<Record>)
    requires Faithful(c) && Chained(c.digest, log)
    ensures var file := Flatten(Rendered(c, log));
            var r := Verify(c, file, c.fileSha(file), Head(log), Some(|log|));
            if forall i :: 0 <= i < |log| ==> Exportable(c, log[i], i + 1)
            then r == Ok(Summary(|log|, Head(log), c.fileSha(file))) else r.Err?
  {
    LinesOfFlatten(Rendered(c, log));
    HeadShape(c.digest, log);
    FoldRendered(c, log);
  }

  // ------------------------------------------------------------------------------------------
  // What an accepted file is
  // ------------------------------------------------------------------------------------------

  /** The file's lines decode to this log. */
  ghost predicate Holds(c: Codec, file: Bytes, log: seq<Record>) {
    |Lines(file)| == |log| && forall i :: 0 <= i < |log| ==> Decoded(c, Lines(file)[i]) == Ok(log[i])
  }

  lemma CheckedLineDecodes(c: Codec, st: Progress, line: Bytes)
    requires CheckLine(c, st, line).Ok?
    ensures Decoded(c, line).Ok?
    ensures var r, st' := Decoded(c, line).value, CheckLine(c, st, line).value;
            && r.prev == st.head && r.hash == c.digest(r.event, r.prev)
            && r.event.id == st.previousId + 1 && st' == Progress(r.hash, st.count + 1, r.event.id)
  {
  }

  /** The document of an exported record, with exactly its members, and its format number as Python compares it. */
  ghost predicate DocumentOf(j: Json, r: Record) {
    && j.JObj? && j.fields.Keys == {Format, EventKey, PrevHash, EventHash}
    && (j.fields[Format] == JInt(1) || j.fields[Format] == JBool(true) || j.fields[Format] == JReal(1.0))
    && j.fields[EventKey] == EventDocument(r.event)
    && j.fields[PrevHash] == JStr(r.prev) && j.fields[EventHash] == JStr(r.hash)
  }

  /**
   A line is accepted exactly when it is a complete line of at most two mebibytes that parses to the document of a
   record with the next id, a time that is not negative and details that are a JSON object, linked to the head before
   it by its own digest of 64 lower-case hexadecimal characters.
   */
  lemma AcceptedLineIs(c: Codec, st: Progress, line: Bytes)
    ensures CheckLine(c, st, line).Ok? <==> exists r :: Acceptable(c, st, line, r)
    ensures forall r :: Acceptable(c, st, line, r) ==>
              CheckLine(c, st, line) == Ok(Progress(r.hash, st.count + 1, r.event.id))
  {
    if CheckLine(c, st, line).Ok? {
      AcceptedHolds(c, st, line);
    }
    forall r | Acceptable(c, st, line, r)
      ensures CheckLine(c, st, line) == Ok(Progress(r.hash, st.count + 1, r.event.id))
    {
      AcceptableIsAccepted(c, st, line, r);
    }
  }

  lemma AcceptedHolds(c: Codec, st: Progress, line: Bytes)
    requires CheckLine(c, st, line).Ok?
    ensures Decoded(c, line).Ok? && Acceptable(c, st, line, Decoded(c, line).value)
  {
    EventReadsBackOf(c.parse(line).value.fields[EventKey].fields);
  }

  lemma AcceptableIsAccepted(c: Codec, st: Progress, line: Bytes, r: Record)
    requires Acceptable(c, st, line, r)
    ensures CheckLine(c, st, line) == Ok(Progress(r.hash, st.count + 1, r.event.id))
  {
    EventReadsBack(r.event);
  }

  ghost predicate Acceptable(c: Codec, st: Progress, line: Bytes, r: Record) {
    && 0 < |line| <= 2097152 && line[|line| - 1] == 10
    && c.parse(line).Some? && DocumentOf(c.parse(line).value, r)
    && r.event.id == st.previousId + 1 && r.event.timestamp >= 0
    && c.loads(r.event.details).Some? && c.loads(r.event.details).value.JObj?
    && r.prev == st.head && r.hash == c.digest(r.event, r.prev)
    && |r.hash| == 64 && (forall i :: 0 <= i < 64 ==> '0' <= r.hash[i] <= '9' || 'a' <= r.hash[i] <= 'f')
  }

  lemma EventReadsBackOf(f: map<Key, Json>)
    requires f.Keys == EVENT_KEYS && f[Id].JInt? && Typed(f)
    ensures EventDocument(EventOf(f)) == JObj(f)
  {
    var e := EventOf(f);
    assert EventDocument(e).fields == f;
  }

  type Decode = Bytes -> Result<Record>

  function Decoder(c: Codec): Decode {
    line => Decoded(c, line)
  }

  /** An accepted line is the next record of the chain. */
  ghost predicate Sound(h: ChainHash, check: Check, decode: Decode) {
    forall st, line :: check(st, line).Ok? ==> Extends(h, st, decode(line), check(st, line).value)
  }

  predicate Extends(h: ChainHash, st: Progress, r: Result<Record>, st': Progress) {
    && r.Ok? && r.value.prev == st.head && r.value.hash == h(r.value.event, r.value.prev)
    && r.value.event.id == st.previousId + 1 && st' == Progress(r.value.hash, st.count + 1, r.value.event.id)
  }

  lemma CheckerIsSound(c: Codec)
    ensures Sound(c.digest, Checker(c), Decoder(c))
  {
    forall st, line | Checker(c)(st, line).Ok?
      ensures Extends(c.digest, st, Decoder(c)(line), Checker(c)(st, line).value)
    {
      CheckedLineDecodes(c, st, line);
    }
  }

  ghost predicate NumberedChain(h: ChainHash, log: seq<Record>) {
    Chained(h, log) && forall i :: 0 <= i < |log| ==> log[i].event.id == i + 1
  }

  lemma {:induction false} ExtendsChain(h: ChainHash, before: seq<Record>, r: Record, st': Progress)
    requires NumberedChain(h, before) && Extends(h, Progress(Head(before), |before|, |before|), Ok(r), st')
    ensures NumberedChain(h, before + [r])
    ensures st' == Progress(Head(before + [r]), |before| + 1, |before| + 1)
  {
    AppendKeepsChain(h, before, r.event);
    assert r == Record(r.event, Head(before), h(r.event, Head(before)));
  }

  /** The lines decode to the records from position k on. */
  ghost predicate DecodesTo(decode: Decode, lines: seq<Bytes>, log: seq<Record>, k: nat) {
    |log| == k + |lines| && forall i :: 0 <= i < |lines| ==> decode(lines[i]) == Ok(log[k + i])
  }

  lemma {:induction false} DecodesOneMore(decode: Decode, line: Bytes, rest: seq<Bytes>, log: seq<Record>, k: nat)
    requires k < |log| && decode(line) == Ok(log[k]) && DecodesTo(decode, rest, log, k + 1)
    ensures DecodesTo(decode, [line] + rest, log, k)
  {
    var lines := [line] + rest;
    forall i | 0 <= i < |lines| ensures decode(lines[i]) == Ok(log[k + i]) {
      if i > 0 {
        assert lines[i] == rest[i - 1];
      }
    }
  }

  lemma {:induction false} FoldDecodes(h: ChainHash, check: Check, decode: Decode, lines: seq<Bytes>,
                                       before: seq<Record>)
    returns (log: seq<Record>)
    requires Sound(h, check, decode) && NumberedChain(h, before)
    requires Fold(check, Progress(Head(before), |before|, |before|), lines).Ok?
    ensures before <= log && NumberedChain(h, log) && DecodesTo(decode, lines, log, |before|)
    ensures Fold(check, Progress(Head(before), |before|, |before|), lines) == Ok(Progress(Head(log), |log|, |log|))
    decreases |lines|
  {
    if lines == [] {
      log := before;
    } else {
      var line, rest := lines[0], lines[1..];
      var st := Progress(Head(before), |before|, |before|);
      assert lines == [line] + rest;
      FoldStep(check, st, line, rest);
      assert Extends(h, st, decode(line), check(st, line).value);
      var longer := before + [decode(line).value];
      ExtendsChain(h, before, decode(line).value, check(st, line).value);
      log := FoldDecodes(h, check, decode, rest, longer);
      assert longer[|before|] == log[|before|];
      DecodesOneMore(decode, line, rest, log, |before|);
    }
  }

  function EventsOf(log: seq<Record>): (events: seq<Event>)
    ensures |events| == |log|
  {
    seq(|log|, i requires 0 <= i < |log| => log[i].event)
  }

  function ChainOf(log: seq<Record>): map<int, Link> {
    map id: int {:trigger log[id - 1]} | 1 <= id <= |log| :: Link(log[id - 1].prev, log[id - 1].hash)
  }

  /**
   Any file the streaming verifier accepts holds a log that the database verifier accepts too, with
   ids 1..n and the reported count and head.
   */
  lemma {:induction false} AcceptedIsChain(c: Codec, file: Bytes, expectedFile: string, expectedHead: string,
                                           expectedEvents: Option<int>)
    returns (log: seq<Record>)
    requires Verify(c, file, expectedFile, expectedHead, expectedEvents).Ok?
    ensures var sum := Verify(c, file, expectedFile, expectedHead, expectedEvents).value;
            && Holds(c, file, log) && sum == Summary(|log|, Head(log), c.fileSha(file))
            && Chained(c.digest, log) && Numbered(EventsOf(log)) && Intact(c.digest, EventsOf(log), ChainOf(log))
            && (expectedHead != "" ==> Head(log) == expectedHead)
            && (expectedFile != "" ==> c.fileSha(file) == expectedFile)
            && (expectedEvents.Some? ==> |log| == expectedEvents.value)
  {
    CheckerIsSound(c);
    log := FoldDecodes(c.digest, Checker(c), Decoder(c), Lines(file), []);
    TablesOfLog(c.digest, log);
  }

  lemma {:induction false} TablesOfLog(h: ChainHash, log: seq<Record>)
    requires NumberedChain(h, log)
    ensures Numbered(EventsOf(log)) && Intact(h, EventsOf(log), ChainOf(log))
  {
    var events, chain := EventsOf(log), ChainOf(log);
    assert forall i :: 0 <= i < |log| ==> events[i].id == i + 1;
    forall id | id in chain ensures exists i :: 0 <= i < |events| && events[i].id == id {
      assert events[id - 1].id == id;
    }
    JoinedTables(log, events, chain);
  }

  lemma {:induction false} JoinedTables(log: seq<Record>, events: seq<Event>, chain: map<int, Link>)
    requires events == EventsOf(log) && chain == ChainOf(log)
    requires forall i :: 0 <= i < |log| ==> log[i].event.id == i + 1
    ensures (forall i :: 0 <= i < |events| ==> events[i].id in chain) && Joined(events, chain) == log
  {
    forall i | 0 <= i < |log| ensures events[i].id in chain && chain[events[i].id] == Link(log[i].prev, log[i].hash) {
      assert log[i + 1 - 1] == log[i];
    }
  }

  /**
   A retained head binds the export: a file accepted against the head of a verified log holds exactly
   that log, or two different hashed texts with equal digests have been found.
   */
  lemma {:induction false} RetainedHeadBinds(c: Codec, sha: TextHash, file: Bytes, expectedFile: string,
                                             expectedEvents: Option<int>, log: seq<Record>)
    requires c.digest == AuditDigest(sha) && MakesDigests(c.digest) && Chained(c.digest, log) && log != []
    requires Verify(c, file, expectedFile, Head(log), expectedEvents).Ok?
    ensures Holds(c, file, log) || exists other :: Holds(c, file, other) && Collision(sha, other, log)
  {
    var held := AcceptedIsChain(c, file, expectedFile, Head(log), expectedEvents);
    HeadShape(c.digest, log);
    HeadBindsChain(sha, held, log);
  }
}
