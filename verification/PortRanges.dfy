/** Parsing of port strings (core/port/port.go). */
module PortRanges {
  import opened Types

  datatype Range = Range(lo: uint16, hi: uint16)

  // ---------- text ----------

  /** `strings.Split` for a one-character separator. */
  function Split(s: string, c: char): (parts: seq<string>)
    ensures |parts| >= 1
  {
    if s == [] then [[]]
    else
      var rest := Split(s[1..], c);
      if s[0] == c then [[]] + rest else [[s[0]] + rest[0]] + rest[1..]
  }

  predicate IsDigits(s: string) {
    forall i :: 0 <= i < |s| ==> '0' <= s[i] <= '9'
  }

  function Value(s: string): nat
    requires IsDigits(s)
  {
    if s == [] then 0 else 10 * Value(s[..|s| - 1]) + (s[|s| - 1] - '0') as nat
  }

  /** `strconv.ParseUint(s, 10, 16)`; both kinds of error become `None`. */
  function ParseUint16(s: string): Option<uint16> {
    if s != [] && IsDigits(s) && Value(s) < 65536 then Some(Value(s)) else None
  }

  predicate Contains(s: string, sub: string) {
    exists i :: 0 <= i <= |s| && sub <= s[i..]
  }

  // ---------- tokens ----------

  const TOP := "top1000"

  /** Anything but two dash-separated parts is read as its first number alone. */
  function ParseToken(tok: string): Option<Range> {
    var parts := Split(tok, '-');
    match ParseUint16(parts[0])
    case None => None
    case Some(lo) =>
      if |parts| == 2 then
        match ParseUint16(parts[1])
        case None => None
        case Some(hi) => Some(Range(lo, hi))
      else Some(Range(lo, lo))
  }

  predicate Acceptable(tok: string) {
    tok == TOP || ParseToken(tok).Some?
  }

  /** The ranges read before the first bad token. */
  function Ranges(toks: seq<string>): seq<Range> {
    if toks == [] || !Acceptable(toks[0]) then []
    else TokenRanges(toks[0]) + Ranges(toks[1..])
  }

  function Tokens(portStr: string): seq<string> {
    Split(if portStr == "-" then "1-65535" else portStr, ',')
  }

  predicate Accepted(portStr: string) {
    forall j :: 0 <= j < |Tokens(portStr)| ==> Acceptable(Tokens(portStr)[j])
  }

  lemma Assoc(a: seq<Range>, b: seq<Range>, c: seq<Range>)
    ensures a + (b + c) == a + b + c
  {}

  lemma {:induction false} RangesStop(a: seq<string>, b: seq<string>)
    requires forall j :: 0 <= j < |a| ==> Acceptable(a[j])
    ensures Ranges(a + b) == Ranges(a) + Ranges(b)
  {
    if a == [] {
      assert a + b == b;
    } else {
      RangesStop(a[1..], b);
      assert (a + b)[0] == a[0] && (a + b)[1..] == a[1..] + b;
      Assoc(TokenRanges(a[0]), Ranges(a[1..]), Ranges(b));
    }
  }

  function TokenRanges(tok: string): seq<Range>
    requires Acceptable(tok)
  {
    if tok == TOP then [] else [ParseToken(tok).value]
  }

  /** Reading one more good token adds its range, if it has one. */
  lemma RangesNext(toks: seq<string>, k: nat)
    requires k < |toks| && Acceptable(toks[k]) && forall j :: 0 <= j < k ==> Acceptable(toks[j])
    ensures Ranges(toks[..k + 1]) == Ranges(toks[..k]) + TokenRanges(toks[k])
  {
    RangesStop(toks[..k], [toks[k]]);
    assert toks[..k + 1] == toks[..k] + [toks[k]];
    assert [toks[k]][1..] == [];
  }

  /** A bad token ends the reading. */
  lemma RangesEnd(toks: seq<string>, k: nat)
    requires k < |toks| && !Acceptable(toks[k]) && forall j :: 0 <= j < k ==> Acceptable(toks[j])
    ensures Ranges(toks) == Ranges(toks[..k])
  {
    RangesStop(toks[..k], toks[k..]);
    assert toks == toks[..k] + toks[k..];
  }

  method ParsePortRangeStr(portStr: string) returns (out: seq<Range>, ok: bool)
    ensures ok <==> Accepted(portStr)
    ensures out == Ranges(Tokens(portStr))
  {
    var str := if portStr == "-" then "1-65535" else portStr;
    var groups := Split(str, ',');
    out, ok := [], true;
    for k := 0 to |groups|
      invariant forall j :: 0 <= j < k ==> Acceptable(groups[j])
      invariant out == Ranges(groups[..k])
    {
      var tok := groups[k];
      if Acceptable(tok) { RangesNext(groups, k); } else { RangesEnd(groups, k); }
      if tok == TOP {
        continue;
      }
      var parts := Split(tok, '-');
      var start := ParseUint16(parts[0]);
      if start.None? {
        assert !Acceptable(Tokens(portStr)[k]);
        return out, false;
      }
      var end := start;
      if |parts| == 2 {
        end := ParseUint16(parts[1]);
      }
      if end.None? {
        assert !Acceptable(Tokens(portStr)[k]);
        return out, false;
      }
      out := out + [Range(start.value, end.value)];
    }
    assert groups[..|groups|] == groups;
  }

  predicate InRanges(p: uint16, ranges: seq<Range>) {
    exists j :: 0 <= j < |ranges| && ranges[j].lo <= p <= ranges[j].hi
  }

  method IsInPortRange(p: uint16, ranges: seq<Range>) returns (b: bool)
    ensures b == InRanges(p, ranges)
  {
    for j := 0 to |ranges|
      invariant forall i :: 0 <= i < j ==> !(ranges[i].lo <= p <= ranges[i].hi)
    {
      if p >= ranges[j].lo && p <= ranges[j].hi {
        return true;
      }
    }
    b := false;
  }

  // ---------- rendering, and reading back ----------

  function Digit(d: nat): char
    requires d < 10
  {
    '0' + d as char
  }

  function Dec(n: nat): (s: string)
    ensures s != [] && forall i :: 0 <= i < |s| ==> '0' <= s[i] <= '9'
  {
    if n < 10 then [Digit(n)] else Dec(n / 10) + [Digit(n % 10)]
  }

  lemma ValueAppend(s: string, d: nat)
    requires IsDigits(s) && d < 10
    ensures IsDigits(s + [Digit(d)]) && Value(s + [Digit(d)]) == 10 * Value(s) + d
  {
    assert (s + [Digit(d)])[..|s|] == s;
  }

  lemma {:induction false} DecValue(n: nat)
    ensures IsDigits(Dec(n)) && Value(Dec(n)) == n
  {
    if n < 10 {
      ValueAppend("", n);
      assert "" + [Digit(n)] == [Digit(n)];
    } else {
      DecValue(n / 10);
      ValueAppend(Dec(n / 10), n % 10);
    }
  }

  lemma DecReadsBack(n: uint16)
    ensures ParseUint16(Dec(n)) == Some(n)
    ensures '-' !in Dec(n) && ',' !in Dec(n)
  {
    DecValue(n);
  }

  /** A chain of three or more numbers stands for its first one. */
  datatype Item = Top | Single(port: uint16) | Span(range: Range) | Chain(first: uint16, second: uint16, third: uint16)

  function Render(item: Item): string {
    match item
    case Top => TOP
    case Single(p) => Dec(p)
    case Span(r) => Dec(r.lo) + "-" + Dec(r.hi)
    case Chain(a, b, c) => Dec(a) + "-" + Dec(b) + "-" + Dec(c)
  }

  /** The range an item asks for, if any. */
  function Asks(item: Item): Option<Range> {
    match item
    case Top => None
    case Single(p) => Some(Range(p, p))
    case Span(r) => Some(r)
    case Chain(a, _, _) => Some(Range(a, a))
  }

  function RenderAll(items: seq<Item>): string
    requires items != []
  {
    if |items| == 1 then Render(items[0]) else Render(items[0]) + "," + RenderAll(items[1..])
  }

  function Spans(items: seq<Item>): seq<Range> {
    if items == [] then []
    else (match Asks(items[0]) case None => [] case Some(r) => [r]) + Spans(items[1..])
  }

  function RenderEach(items: seq<Item>): seq<string> {
    if items == [] then [] else [Render(items[0])] + RenderEach(items[1..])
  }

  lemma {:induction false} SplitNone(s: string, c: char)
    requires c !in s
    ensures Split(s, c) == [s]
  {
    if s != [] {
      SplitNone(s[1..], c);
      assert [s[0]] + s[1..] == s;
    }
  }

  lemma {:induction false} SplitFirst(a: string, b: string, c: char)
    requires c !in a
    ensures Split(a + [c] + b, c) == [a] + Split(b, c)
  {
    var s := a + [c] + b;
    if a == [] {
      assert s[1..] == b;
    } else {
      SplitFirst(a[1..], b, c);
      assert s[1..] == a[1..] + [c] + b;
      assert [a[0]] + a[1..] == a;
    }
  }

  /** A token without a dash is its only part; one dash makes two, and more dashes more. */
  lemma TokenParts(a: string, b: string, c: string)
    requires '-' !in a && '-' !in b
    ensures Split(a, '-') == [a] && Split(a + "-" + b, '-') == [a, b]
    ensures var parts := Split(a + "-" + b + "-" + c, '-'); |parts| > 2 && parts[0] == a
  {
    SplitNone(a, '-');
    SplitNone(b, '-');
    SplitFirst(a, b, '-');
    assert a + "-" + b == a + ['-'] + b;
    SplitFirst(b, c, '-');
    SplitFirst(a, b + ['-'] + c, '-');
    assert a + "-" + b + "-" + c == a + ['-'] + (b + ['-'] + c);
  }

  lemma ItemReadsBack(item: Item)
    requires !item.Top?
    ensures ParseToken(Render(item)) == Asks(item) && Render(item) != TOP && ',' !in Render(item)
  {
    match item
    case Single(p) =>
      DecReadsBack(p);
      TokenParts(Dec(p), "", "");
    case Span(r) =>
      DecReadsBack(r.lo);
      DecReadsBack(r.hi);
      TokenParts(Dec(r.lo), Dec(r.hi), "");
    case Chain(a, b, c) =>
      DecReadsBack(a);
      DecReadsBack(b);
      DecReadsBack(c);
      TokenParts(Dec(a), Dec(b), Dec(c));
  }

  lemma StartsWith(item: Item)
    ensures Render(item) != "" && (Render(item)[0] == 't' || '0' <= Render(item)[0] <= '9')
  {}

  lemma {:induction false} RenderedTokens(items: seq<Item>)
    requires items != []
    ensures Split(RenderAll(items), ',') == RenderEach(items)
  {
    if !items[0].Top? { ItemReadsBack(items[0]); }
    var first := Render(items[0]);
    assert ',' !in first;
    if |items| == 1 {
      SplitNone(first, ',');
      assert RenderEach(items[1..]) == [];
    } else {
      SplitFirst(first, RenderAll(items[1..]), ',');
      assert first + [','] + RenderAll(items[1..]) == RenderAll(items);
      RenderedTokens(items[1..]);
    }
  }

  lemma {:induction false} RenderedRanges(items: seq<Item>)
    ensures Ranges(RenderEach(items)) == Spans(items)
    ensures forall j :: 0 <= j < |RenderEach(items)| ==> Acceptable(RenderEach(items)[j])
  {
    if items != [] {
      if !items[0].Top? { ItemReadsBack(items[0]); }
      RenderedRanges(items[1..]);
    }
  }

  /** Writing any list of single ports, ranges, chains of three numbers and "top1000" tokens and
      parsing it gives what the items ask for, in order. */
  lemma {:induction false} RenderThenParse(items: seq<Item>)
    requires items != []
    ensures Accepted(RenderAll(items)) && Ranges(Tokens(RenderAll(items))) == Spans(items)
  {
    StartsWith(items[0]);
    assert RenderAll(items)[0] == Render(items[0])[0];
    RenderedTokens(items);
    RenderedRanges(items);
  }

  // ---------- exactly what a token may look like ----------

  function Zeros(z: nat): (s: string)
    ensures |s| == z && forall i :: 0 <= i < z ==> s[i] == '0'
  {
    seq(z, _ => '0')
  }

  /** `s` is a decimal numeral of `n`, with any leading zeros. */
  ghost predicate Numeral(s: string, n: nat) {
    exists z: nat :: s == Zeros(z) + Dec(n)
  }

  lemma {:induction false} ZerosWorthNothing(z: nat, s: string)
    requires IsDigits(s)
    ensures IsDigits(Zeros(z) + s) && Value(Zeros(z) + s) == Value(s)
    decreases |s|
  {
    var all := Zeros(z) + s;
    if s == "" {
      NothingButZeros(z);
      assert all == Zeros(z);
    } else {
      ZerosWorthNothing(z, s[..|s| - 1]);
      assert all[..|all| - 1] == Zeros(z) + s[..|s| - 1];
    }
  }

  lemma {:induction false} NothingButZeros(z: nat)
    ensures IsDigits(Zeros(z)) && Value(Zeros(z)) == 0
  {
    if z > 0 {
      NothingButZeros(z - 1);
      assert Zeros(z)[..z - 1] == Zeros(z - 1);
    }
  }

  /** Digits without a leading zero are the rendering of their value. */
  lemma {:induction false} Canonical(s: string)
    requires s != "" && IsDigits(s) && (|s| == 1 || s[0] != '0')
    ensures Dec(Value(s)) == s && (s[0] != '0' ==> Value(s) > 0)
  {
    var front, last := s[..|s| - 1], (s[|s| - 1] - '0') as nat;
    assert s == front + [Digit(last)];
    if |s| == 1 {
      assert front == "" && Value(s) == last;
    } else {
      Canonical(front);
      assert Value(s) / 10 == Value(front) && Value(s) % 10 == last;
    }
  }

  lemma ZeroInFront(s: string, z: nat, d: string)
    requires s != "" && s[0] == '0' && s[1..] == Zeros(z) + d
    ensures s == Zeros(z + 1) + d
  {
    assert Zeros(z + 1) == ['0'] + Zeros(z);
    assert s == ['0'] + s[1..];
  }

  lemma LeadingZero(s: string)
    requires IsDigits(s) && s != "" && s[0] == '0'
    ensures Value(s) == Value(s[1..])
  {
    assert s == Zeros(1) + s[1..];
    ZerosWorthNothing(1, s[1..]);
  }

  lemma {:induction false} DigitsAreNumeral(s: string, n: nat)
    requires s != "" && IsDigits(s) && n == Value(s)
    ensures Numeral(s, n)
  {
    if |s| == 1 || s[0] != '0' {
      Canonical(s);
      assert s == Zeros(0) + Dec(n);
    } else {
      LeadingZero(s);
      DigitsAreNumeral(s[1..], n);
      var z: nat :| s[1..] == Zeros(z) + Dec(n);
      ZeroInFront(s, z, Dec(n));
    }
  }

  /** A number is read from exactly its numerals, and only if it has 16 bits. */
  lemma NumberIff(s: string, n: nat)
    ensures Numeral(s, n) && n < 65536 <==> ParseUint16(s).Some? && ParseUint16(s).value == n
  {
    if Numeral(s, n) {
      var z: nat :| s == Zeros(z) + Dec(n);
      DecValue(n);
      ZerosWorthNothing(z, Dec(n));
    }
    if ParseUint16(s).Some? { DigitsAreNumeral(s, Value(s)); }
  }

  /** Without a dash a token is one number, with one dash two, and with more dashes the first
      number alone, whatever else there is. */
  lemma TokenIff(a: string, b: string, c: string, r: Range)
    requires '-' !in a && '-' !in b
    ensures ParseToken(a) == Some(r) <==> Numeral(a, r.lo) && r.hi == r.lo
    ensures ParseToken(a + "-" + b) == Some(r) <==> Numeral(a, r.lo) && Numeral(b, r.hi)
    ensures ParseToken(a + "-" + b + "-" + c) == Some(r) <==> Numeral(a, r.lo) && r.hi == r.lo
  {
    TokenParts(a, b, c);
    NumberIff(a, r.lo);
    NumberIff(b, r.hi);
  }

  /** Containing means containing as a part. */
  lemma ContainsIff(s: string, sub: string)
    ensures Contains(s, sub) <==> exists a, b :: s == a + sub + b
  {
    if Contains(s, sub) {
      var i :| 0 <= i <= |s| && sub <= s[i..];
      assert s == s[..i] + sub + s[i + |sub|..];
    }
    if exists a, b :: s == a + sub + b {
      var a, b :| s == a + sub + b;
      assert s[|a|..] == sub + b;
    }
  }

  /** The priority token is the one the source names, and asks for no range itself. */
  lemma TopToken()
    ensures TOP == "top" + "1000" && Accepted(TOP) && Ranges(Tokens(TOP)) == []
  {
    RenderThenParse([Top]);
    assert [Top][1..] == [];
    assert RenderAll([Top]) == TOP;
  }

  lemma {:induction false} TopIsContained(items: seq<Item>)
    requires items != [] && Top in items
    ensures Contains(RenderAll(items), TOP)
  {
    var str := RenderAll(items);
    if items[0] == Top {
      assert TOP <= str[0..];
    } else {
      TopIsContained(items[1..]);
      var rest := RenderAll(items[1..]);
      var i :| 0 <= i <= |rest| && TOP <= rest[i..];
      assert str == Render(items[0]) + "," + rest;
      assert str[|Render(items[0])| + 1 + i..] == rest[i..];
    }
  }

  lemma {:induction false} NoTopNoLetter(items: seq<Item>)
    requires items != [] && Top !in items
    ensures 't' !in RenderAll(items)
  {
    if |items| > 1 { NoTopNoLetter(items[1..]); }
    assert items[0] != Top && 't' !in Render(items[0]);
  }

  /** A string whose first character is nowhere in `s` is not contained in it. */
  lemma NotContained(s: string, sub: string)
    requires sub != "" && sub[0] !in s
    ensures !Contains(s, sub)
  {
    forall i | 0 <= i <= |s| ensures !(sub <= s[i..]) {
      assert i < |s| ==> s[i] in s;
    }
  }

  /** A rendered string contains the priority token exactly when it is one of the items. */
  lemma ContainsTopIff(items: seq<Item>)
    requires items != []
    ensures Contains(RenderAll(items), TOP) <==> Top in items
  {
    if Top in items {
      TopIsContained(items);
    } else {
      NoTopNoLetter(items);
      NotContained(RenderAll(items), TOP);
    }
  }
}
