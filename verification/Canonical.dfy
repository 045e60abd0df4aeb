/**
 The canonical JSON array that an audit event is hashed as, and the proof that it determines the event.
 Strings are escaped as Python's json does without ASCII escaping; separators carry no spaces.
 */
module Canonical {
  import opened Basics

  datatype Event = Event(id: int, timestamp: int, requestId: string, actor: string, action: string,
                         objectId: Option<string>, outcome: string, sourceZone: string, remoteAddr: string,
                         details: string)

  datatype Atom = I(i: int) | S(s: string) | N

  const HEX: string := "0123456789abcdef"

  function Decimal(n: nat): (r: string)
    ensures |r| >= 1 && forall k :: 0 <= k < |r| ==> '0' <= r[k] <= '9'
  {
    if n < 10 then [HEX[n]] else Decimal(n / 10) + [HEX[n % 10]]
  }

  /** A smaller number is not written longer. */
  lemma {:induction false} DecimalLength(m: nat, n: nat)
    requires m <= n
    ensures |Decimal(m)| <= |Decimal(n)|
  {
    if m >= 10 {
      DecimalLength(m / 10, n / 10);
    }
  }

  function Integer(i: int): string {
    if i < 0 then "-" + Decimal(-i) else Decimal(i)
  }

  function EscapeChar(c: char): (r: string)
    ensures |r| >= 1 && r[0] != '"'
  {
    match c
    case '"' => "\\\""
    case '\\' => "\\\\"
    case '\n' => "\\n"
    case '\r' => "\\r"
    case '\t' => "\\t"
    case '\U{0008}' => "\\b"
    case '\U{000C}' => "\\f"
    case _ => if c < ' ' then "\\u00" + [HEX[c as int / 16], HEX[c as int % 16]] else [c]
  }

  function Escape(s: string): string {
    if s == "" then "" else EscapeChar(s[0]) + Escape(s[1..])
  }

  function Text(a: Atom): string {
    match a
    case I(i) => Integer(i)
    case S(s) => "\"" + Escape(s) + "\""
    case N => "null"
  }

  function Join(atoms: seq<Atom>): string
    requires |atoms| > 0
  {
    if |atoms| == 1 then Text(atoms[0]) else Text(atoms[0]) + "," + Join(atoms[1..])
  }

  function Atoms(e: Event): (atoms: seq<Atom>)
    ensures |atoms| == 10
  {
    [I(e.id), I(e.timestamp), S(e.requestId), S(e.actor), S(e.action),
     if e.objectId.Some? then S(e.objectId.value) else N,
     S(e.outcome), S(e.sourceZone), S(e.remoteAddr), S(e.details)]
  }

  function Encode(e: Event): string {
    "[" + Join(Atoms(e)) + "]"
  }

  // ------------------------------------------------------------------------------------------
  // The text determines the event
  // ------------------------------------------------------------------------------------------

  predicate Delimiter(c: char) {
    c == ',' || c == ']'
  }

  function DecimalValue(s: string): int {
    if s == "" then 0 else 10 * DecimalValue(s[..|s| - 1]) + s[|s| - 1] as int - '0' as int
  }

  lemma {:induction false} DecimalReadsBack(n: nat)
    ensures DecimalValue(Decimal(n)) == n
  {
    var r := Decimal(n);
    assert HEX[n % 10] as int - '0' as int == n % 10;
    if n < 10 {
      assert r[..0] == "";
    } else {
      assert r[..|r| - 1] == Decimal(n / 10);
      DecimalReadsBack(n / 10);
    }
  }

  lemma DecimalDetermines(m: nat, n: nat)
    requires Decimal(m) == Decimal(n)
    ensures m == n
  {
    DecimalReadsBack(m);
    DecimalReadsBack(n);
  }

  lemma SignedDetermines(negative: bool, a: string, negative': bool, b: string)
    requires |a| > 0 && |b| > 0 && a[0] != '-' && b[0] != '-'
    requires (if negative then "-" + a else a) == (if negative' then "-" + b else b)
    ensures negative == negative' && a == b
  {
    assert ("-" + a)[0] == '-' && ("-" + b)[0] == '-';
    assert ("-" + a)[1..] == a && ("-" + b)[1..] == b;
  }

  lemma IntegerDetermines(i: int, k: int)
    requires Integer(i) == Integer(k)
    ensures i == k
  {
    var a, b := if i < 0 then -i else i, if k < 0 then -k else k;
    SignedDetermines(i < 0, Decimal(a), k < 0, Decimal(b));
    DecimalDetermines(a, b);
  }

  lemma SplitAtDelimiter(x: string, r: string, y: string, t: string)
    requires x + r == y + t && r != "" && t != "" && Delimiter(r[0]) && Delimiter(t[0])
    requires forall k :: 0 <= k < |x| ==> !Delimiter(x[k])
    requires forall k :: 0 <= k < |y| ==> !Delimiter(y[k])
    ensures x == y && r == t
  {
    assert (x + r)[|x|] == r[0] && (y + t)[|y|] == t[0];
    assert |x| == |y|;
    assert x == (x + r)[..|x|] && r == (x + r)[|x|..];
    assert y == (y + t)[..|y|] && t == (y + t)[|y|..];
  }

  lemma EscapeCharDetermines(c: char, r: string, d: char, t: string)
    requires EscapeChar(c) + r == EscapeChar(d) + t
    ensures c == d && r == t
  {
    var x, y := EscapeChar(c), EscapeChar(d);
    assert (x + r)[0] == (y + t)[0];
    if |x| >= 2 && |y| >= 2 {
      assert (x + r)[1] == (y + t)[1];
    }
    EscapeShaped(c);
    EscapeShaped(d);
    SameLength(x, y);
    assert x == (x + r)[..|x|] && y == (y + t)[..|y|];
    EscapedAlike(c, d);
    assert r == (x + r)[|x|..] && t == (y + t)[|y|..];
  }

  /** A character stands for itself, for a letter behind a backslash, or for four hexadecimal digits behind one. */
  predicate Shaped(x: string) {
    (|x| == 1 && x[0] != '\\') || (|x| == 2 && x[0] == '\\' && x[1] != 'u') || (|x| == 6 && x[..2] == "\\u")
  }

  lemma EscapeShaped(c: char)
    ensures Shaped(EscapeChar(c))
  {
  }

  /** The first two characters of an escape say how long it is. */
  lemma SameLength(x: string, y: string)
    requires Shaped(x) && Shaped(y) && x[0] == y[0] && (|x| >= 2 && |y| >= 2 ==> x[1] == y[1])
    ensures |x| == |y|
  {
  }

  lemma EscapedAlike(c: char, d: char)
    requires EscapeChar(c) == EscapeChar(d)
    ensures c == d
  {
    var x := EscapeChar(c);
    if |x| == 6 {
      assert x[4] == HEX[c as int / 16] == HEX[d as int / 16] && x[5] == HEX[c as int % 16] == HEX[d as int % 16];
    } else if |x| == 1 {
      assert x[0] == c == d;
    } else {
      assert x[1] == EscapeChar(d)[1];
    }
  }

  lemma Regroup(a: string, b: string, c: string, d: string)
    ensures a + b + c + d == a + (b + c + d)
  {
  }

  lemma EscapeHead(s: string, r: string)
    ensures var x := Escape(s) + "\"" + r;
            (x[0] == '"' <==> s == "") && (s == "" ==> x[1..] == r)
  {
  }

  lemma {:induction false} QuotedDetermines(s: string, r: string, u: string, t: string)
    requires Escape(s) + "\"" + r == Escape(u) + "\"" + t
    ensures s == u && r == t
  {
    EscapeHead(s, r);
    EscapeHead(u, t);
    if s != "" {
      Regroup(EscapeChar(s[0]), Escape(s[1..]), "\"", r);
      Regroup(EscapeChar(u[0]), Escape(u[1..]), "\"", t);
      EscapeCharDetermines(s[0], Escape(s[1..]) + "\"" + r, u[0], Escape(u[1..]) + "\"" + t);
      QuotedDetermines(s[1..], r, u[1..], t);
    }
  }

  lemma TextHead(a: Atom)
    ensures var x := Text(a);
            && |x| > 0 && (a.S? <==> x[0] == '"') && (a.N? <==> x[0] == 'n')
            && (!a.S? ==> forall k :: 0 <= k < |x| ==> !Delimiter(x[k]))
  {
  }

  lemma Unquote(x: string, r: string)
    ensures ("\"" + x + "\"" + r)[1..] == x + "\"" + r
  {
  }

  lemma StringDetermines(s: string, r: string, u: string, t: string)
    requires Text(S(s)) + r == Text(S(u)) + t
    ensures s == u && r == t
  {
    Unquote(Escape(s), r);
    Unquote(Escape(u), t);
    QuotedDetermines(s, r, u, t);
  }

  lemma AtomDetermines(a: Atom, r: string, b: Atom, t: string)
    requires Text(a) + r == Text(b) + t && r != "" && t != "" && Delimiter(r[0]) && Delimiter(t[0])
    ensures a == b && r == t
  {
    TextHead(a);
    TextHead(b);
    var x, y := Text(a), Text(b);
    assert (x + r)[0] == x[0] && (y + t)[0] == y[0];
    if a.S? {
      StringDetermines(a.s, r, b.s, t);
    } else {
      SplitAtDelimiter(x, r, y, t);
      if a.I? {
        IntegerDetermines(a.i, b.i);
      }
    }
  }

  lemma {:induction false} JoinDetermines(a: seq<Atom>, b: seq<Atom>)
    requires |a| == |b| > 0 && Join(a) + "]" == Join(b) + "]"
    ensures a == b
  {
    if |a| == 1 {
      AtomDetermines(a[0], "]", b[0], "]");
    } else {
      var r, t := Join(a[1..]) + "]", Join(b[1..]) + "]";
      JoinSplits(a);
      JoinSplits(b);
      AtomDetermines(a[0], "," + r, b[0], "," + t);
      assert ("," + r)[1..] == r && ("," + t)[1..] == t;
      JoinDetermines(a[1..], b[1..]);
      assert a == [a[0]] + a[1..] && b == [b[0]] + b[1..];
    }
  }

  lemma {:induction false} JoinSplits(a: seq<Atom>)
    requires |a| > 1
    ensures Join(a) + "]" == Text(a[0]) + ("," + (Join(a[1..]) + "]"))
  {
    var x, y := Text(a[0]), Join(a[1..]);
    Regroup(x, ",", y, "]");
    assert "," + y + "]" == "," + (y + "]");
  }

  lemma {:induction false} BracketsDetermine(a: seq<Atom>, b: seq<Atom>)
    requires |a| == |b| > 0 && "[" + Join(a) + "]" == "[" + Join(b) + "]"
    ensures a == b
  {
    var x, y := Join(a), Join(b);
    assert ("[" + x + "]")[1..] == x + "]" && ("[" + y + "]")[1..] == y + "]";
    JoinDetermines(a, b);
  }

  /** Two events with the same canonical text are the same event. */
  lemma EncodeDetermines(e: Event, f: Event)
    requires Encode(e) == Encode(f)
    ensures e == f
  {
    var a, b := Atoms(e), Atoms(f);
    BracketsDetermine(a, b);
    assert a[0] == b[0] && a[1] == b[1] && a[2] == b[2] && a[3] == b[3] && a[4] == b[4];
    assert a[5] == b[5] && a[6] == b[6] && a[7] == b[7] && a[8] == b[8] && a[9] == b[9];
  }
}
