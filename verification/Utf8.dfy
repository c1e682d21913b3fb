/** `convert2utf8` of core/port/fingerprint/fingerprint.go over bytes. The decoder is the one
    behind the language's `range` over a string; validity is the grammar of section 4 of
    RFC 3629 and the encoding is the table of its section 3. */
module Utf8 {
  import opened Types

  type Rune = int

  const RUNE_ERROR: Rune := 0xFFFD

  predicate Scalar(r: Rune) {
    0 <= r <= 0x10FFFF && !(0xD800 <= r <= 0xDFFF)
  }

  // ---------- encoding (RFC 3629, section 3) ----------

  function Encode(r: Rune): (bs: seq<byte>)
    requires Scalar(r)
    ensures 1 <= |bs| <= 4
  {
    if r < 0x80 then [r]
    else if r < 0x800 then [0xC0 + r / 64, 0x80 + r % 64]
    else if r < 0x10000 then [0xE0 + r / 4096, 0x80 + r / 64 % 64, 0x80 + r % 64]
    else [0xF0 + r / 262144, 0x80 + r / 4096 % 64, 0x80 + r / 64 % 64, 0x80 + r % 64]
  }

  // ---------- the grammar (RFC 3629, section 4) ----------

  predicate Tail(b: byte) { 0x80 <= b <= 0xBF }

  /** Length of the UTF8-char that `s` begins with, 0 if it begins with none. */
  function CharLen(s: seq<byte>): (n: nat)
    ensures n <= |s| && n <= 4
  {
    if s == [] then 0
    else if s[0] <= 0x7F then 1
    else if |s| >= 2 && 0xC2 <= s[0] <= 0xDF && Tail(s[1]) then 2
    else if |s| >= 3 && s[0] == 0xE0 && 0xA0 <= s[1] <= 0xBF && Tail(s[2]) then 3
    else if |s| >= 3 && 0xE1 <= s[0] <= 0xEC && Tail(s[1]) && Tail(s[2]) then 3
    else if |s| >= 3 && s[0] == 0xED && 0x80 <= s[1] <= 0x9F && Tail(s[2]) then 3
    else if |s| >= 3 && 0xEE <= s[0] <= 0xEF && Tail(s[1]) && Tail(s[2]) then 3
    else if |s| >= 4 && s[0] == 0xF0 && 0x90 <= s[1] <= 0xBF && Tail(s[2]) && Tail(s[3]) then 4
    else if |s| >= 4 && 0xF1 <= s[0] <= 0xF3 && Tail(s[1]) && Tail(s[2]) && Tail(s[3]) then 4
    else if |s| >= 4 && s[0] == 0xF4 && 0x80 <= s[1] <= 0x8F && Tail(s[2]) && Tail(s[3]) then 4
    else 0
  }

  predicate Valid(s: seq<byte>)
    decreases |s|
  {
    s == [] || (CharLen(s) > 0 && Valid(s[CharLen(s)..]))
  }

  /** Nowhere in `s` stand the three bytes of U+FFFD. */
  predicate NoReplacement(s: seq<byte>) {
    forall i :: 0 <= i < |s| - 2 ==> !(s[i] == 0xEF && s[i + 1] == 0xBF && s[i + 2] == 0xBD)
  }

  // ---------- decoding, as the language does it ----------

  datatype Decoded = Decoded(r: Rune, width: nat)

  function Code2(a: int, b: int): Rune { a % 32 * 64 + b % 64 }
  function Code3(a: int, b: int, c: int): Rune { a % 16 * 4096 + b % 64 * 64 + c % 64 }
  function Code4(a: int, b: int, c: int, d: int): Rune { a % 8 * 262144 + b % 64 * 4096 + c % 64 * 64 + d % 64 }

  /** Computes the code point first and then rejects overlong forms, surrogates and values
      past the last code point. */
  function Decode(s: seq<byte>): (d: Decoded)
    requires s != []
    ensures 1 <= d.width <= |s| && Scalar(d.r)
  {
    var bad := Decoded(RUNE_ERROR, 1);
    if s[0] < 0x80 then Decoded(s[0], 1)
    else if 0xC0 <= s[0] < 0xE0 then
      if |s| > 1 && Tail(s[1]) && 0x7F < Code2(s[0], s[1]) then Decoded(Code2(s[0], s[1]), 2) else bad
    else if 0xE0 <= s[0] < 0xF0 then
      if |s| > 2 && Tail(s[1]) && Tail(s[2]) then
        var r := Code3(s[0], s[1], s[2]);
        if 0x7FF < r && !(0xD800 <= r <= 0xDFFF) then Decoded(r, 3) else bad
      else bad
    else if 0xF0 <= s[0] < 0xF8 then
      if |s| > 3 && Tail(s[1]) && Tail(s[2]) && Tail(s[3]) then
        var r := Code4(s[0], s[1], s[2], s[3]);
        if 0xFFFF < r <= 0x10FFFF then Decoded(r, 4) else bad
      else bad
    else bad
  }

  lemma Code2Parts(a: int, b: int)
    requires 0xC0 <= a < 0xE0 && 0x80 <= b <= 0xBF
    ensures Code2(a, b) == (a - 0xC0) * 64 + (b - 0x80)
    ensures Code2(a, b) / 64 == a - 0xC0 && Code2(a, b) % 64 == b - 0x80
  {}

  lemma Code3Parts(a: int, b: int, c: int)
    requires 0xE0 <= a < 0xF0 && 0x80 <= b <= 0xBF && 0x80 <= c <= 0xBF
    ensures Code3(a, b, c) == (a - 0xE0) * 4096 + (b - 0x80) * 64 + (c - 0x80)
    ensures Code3(a, b, c) / 4096 == a - 0xE0 && Code3(a, b, c) / 64 % 64 == b - 0x80 && Code3(a, b, c) % 64 == c - 0x80
  {
    assert Code3(a, b, c) / 64 == (a - 0xE0) * 64 + (b - 0x80);
  }

  lemma Quotient64(q: int, r: int)
    requires 0 <= r < 64
    ensures (q * 64 + r) / 64 == q && (q * 64 + r) % 64 == r
  {}

  lemma Quotient4096(q: int, r: int)
    requires 0 <= r < 4096
    ensures (q * 4096 + r) / 4096 == q
  {}

  lemma Quotient262144(q: int, r: int)
    requires 0 <= r < 262144
    ensures (q * 262144 + r) / 262144 == q
  {}

  lemma Payloads(a: int, b: int, c: int, d: int)
    requires 0xF0 <= a < 0xF8 && 0x80 <= b <= 0xBF && 0x80 <= c <= 0xBF && 0x80 <= d <= 0xBF
    ensures a % 8 == a - 0xF0 && b % 64 == b - 0x80 && c % 64 == c - 0x80 && d % 64 == d - 0x80
  {}

  lemma Code4Parts(a: int, b: int, c: int, d: int)
    requires 0xF0 <= a < 0xF8 && 0x80 <= b <= 0xBF && 0x80 <= c <= 0xBF && 0x80 <= d <= 0xBF
    ensures Code4(a, b, c, d) == (a - 0xF0) * 262144 + (b - 0x80) * 4096 + (c - 0x80) * 64 + (d - 0x80)
    ensures Code4(a, b, c, d) / 262144 == a - 0xF0 && Code4(a, b, c, d) / 4096 % 64 == b - 0x80
    ensures Code4(a, b, c, d) / 64 % 64 == c - 0x80 && Code4(a, b, c, d) % 64 == d - 0x80
  {
    var w, x, y, z := a - 0xF0, b - 0x80, c - 0x80, d - 0x80;
    Payloads(a, b, c, d);
    Quotient64((w * 64 + x) * 64 + y, z);
    Quotient64(w * 64 + x, y);
    Quotient64(w, x);
    Quotient4096(w * 64 + x, y * 64 + z);
    Quotient262144(w, x * 4096 + y * 64 + z);
  }

  predicate Agrees(s: seq<byte>)
    requires s != []
  {
    if CharLen(s) == 0 then Decode(s) == Decoded(RUNE_ERROR, 1)
    else Decode(s).width == CharLen(s) && Encode(Decode(s).r) == s[..CharLen(s)]
  }

  /** When four well-formed bytes make a code point past the three-byte ones and not too large. */
  lemma Code4Range(a: int, b: int, c: int, d: int)
    requires 0xF0 <= a < 0xF8 && 0x80 <= b <= 0xBF && 0x80 <= c <= 0xBF && 0x80 <= d <= 0xBF
    ensures 0xFFFF < Code4(a, b, c, d) <= 0x10FFFF <==>
            (a == 0xF0 && b >= 0x90) || 0xF1 <= a <= 0xF3 || (a == 0xF4 && b <= 0x8F)
  {
    Code4Parts(a, b, c, d);
  }

  lemma Code3Range(a: int, b: int, c: int)
    requires 0xE0 <= a < 0xF0 && 0x80 <= b <= 0xBF && 0x80 <= c <= 0xBF
    ensures 0x7FF < Code3(a, b, c) && !(0xD800 <= Code3(a, b, c) <= 0xDFFF) <==>
            (a == 0xE0 && b >= 0xA0) || 0xE1 <= a <= 0xEC || (a == 0xED && b <= 0x9F) || a >= 0xEE
    ensures Code3(a, b, c) < 0x10000
  {
    Code3Parts(a, b, c);
  }

  lemma Encode2(r: Rune, a: int, b: int)
    requires 0x80 <= r < 0x800 && r / 64 == a - 0xC0 && r % 64 == b - 0x80
    ensures Encode(r) == [a, b] && a >= 0xC2
  {}

  lemma Encode3(r: Rune, a: int, b: int, c: int)
    requires Scalar(r) && 0x800 <= r < 0x10000
    requires r / 4096 == a - 0xE0 && r / 64 % 64 == b - 0x80 && r % 64 == c - 0x80
    ensures Encode(r) == [a, b, c]
  {}

  lemma Encode4(r: Rune, a: int, b: int, c: int, d: int)
    requires 0x10000 <= r <= 0x10FFFF
    requires r / 262144 == a - 0xF0 && r / 4096 % 64 == b - 0x80 && r / 64 % 64 == c - 0x80 && r % 64 == d - 0x80
    ensures Encode(r) == [a, b, c, d]
  {}

  lemma Agrees2(s: seq<byte>)
    requires |s| >= 2 && 0xC0 <= s[0] < 0xE0 && Tail(s[1])
    ensures Agrees(s)
  {
    Code2Parts(s[0], s[1]);
    if 0x7F < Code2(s[0], s[1]) { Encode2(Code2(s[0], s[1]), s[0], s[1]); }
  }

  lemma Agrees3(s: seq<byte>)
    requires |s| >= 3 && 0xE0 <= s[0] < 0xF0 && Tail(s[1]) && Tail(s[2])
    ensures Agrees(s)
  {
    Code3Range(s[0], s[1], s[2]);
    Code3Parts(s[0], s[1], s[2]);
    if CharLen(s) == 3 { Encode3(Code3(s[0], s[1], s[2]), s[0], s[1], s[2]); }
  }

  lemma Agrees4(s: seq<byte>)
    requires |s| >= 4 && 0xF0 <= s[0] < 0xF8 && Tail(s[1]) && Tail(s[2]) && Tail(s[3])
    ensures Agrees(s)
  {
    Code4Range(s[0], s[1], s[2], s[3]);
    Code4Parts(s[0], s[1], s[2], s[3]);
    if CharLen(s) == 4 { Encode4(Code4(s[0], s[1], s[2], s[3]), s[0], s[1], s[2], s[3]); }
  }

  /** The decoder accepts exactly the characters of the grammar, and what it accepts it can
      write back; anything else costs one byte and reads as U+FFFD. */
  lemma DecodeIsGrammar(s: seq<byte>)
    requires s != []
    ensures CharLen(s) == 0 ==> Decode(s) == Decoded(RUNE_ERROR, 1)
    ensures CharLen(s) > 0 ==> Decode(s).width == CharLen(s) && Encode(Decode(s).r) == s[..CharLen(s)]
  {
    assert Agrees(s) by {
      if |s| >= 2 && 0xC0 <= s[0] < 0xE0 && Tail(s[1]) { Agrees2(s); }
      else if |s| >= 3 && 0xE0 <= s[0] < 0xF0 && Tail(s[1]) && Tail(s[2]) { Agrees3(s); }
      else if |s| >= 4 && 0xF0 <= s[0] < 0xF8 && Tail(s[1]) && Tail(s[2]) && Tail(s[3]) { Agrees4(s); }
    }
  }

  lemma EncodeParts(r: Rune)
    requires Scalar(r)
    ensures r == r / 64 * 64 + r % 64
    ensures r / 64 == r / 4096 * 64 + r / 64 % 64
    ensures r / 4096 == r / 262144 * 64 + r / 4096 % 64
  {}

  lemma Encode3IsChar(r: Rune, s: seq<byte>)
    requires Scalar(r) && 0x800 <= r < 0x10000 && Encode(r) <= s
    ensures CharLen(s) == 3 && Decode(s) == Decoded(r, 3)
  {
    EncodeParts(r);
    assert s[0] == Encode(r)[0] && s[1] == Encode(r)[1] && s[2] == Encode(r)[2];
    Code3Parts(s[0], s[1], s[2]);
  }

  lemma Encode4IsChar(r: Rune, s: seq<byte>)
    requires Scalar(r) && 0x10000 <= r && Encode(r) <= s
    ensures CharLen(s) == 4 && Decode(s) == Decoded(r, 4)
  {
    EncodeParts(r);
    assert s[0] == Encode(r)[0] && s[1] == Encode(r)[1] && s[2] == Encode(r)[2] && s[3] == Encode(r)[3];
    Code4Parts(s[0], s[1], s[2], s[3]);
  }

  /** What is written is one character of the grammar, whatever follows it. */
  lemma EncodeIsChar(r: Rune, t: seq<byte>)
    requires Scalar(r)
    ensures CharLen(Encode(r) + t) == |Encode(r)|
    ensures Decode(Encode(r) + t) == Decoded(r, |Encode(r)|)
  {
    var s := Encode(r) + t;
    if r < 0x80 {
    } else if r < 0x800 {
      EncodeParts(r);
      Code2Parts(s[0], s[1]);
    } else if r < 0x10000 {
      Encode3IsChar(r, s);
    } else {
      Encode4IsChar(r, s);
    }
  }

  // ---------- the conversion ----------

  /** What one decoded character becomes; a replacement character stands for its first byte. */
  function Rewrite(s: seq<byte>): (r: Rune)
    requires s != []
    ensures Scalar(r)
  {
    if Decode(s).r == RUNE_ERROR then s[0] else Decode(s).r
  }

  function Convert(s: seq<byte>): seq<byte>
    decreases |s|
  {
    if s == [] then [] else Encode(Rewrite(s)) + Convert(s[Decode(s).width..])
  }

  /** `tails[k]` is what the text from `k` on becomes. */
  ghost predicate Tails(src: seq<byte>, tails: seq<seq<byte>>) {
    |tails| == |src| + 1 && forall k {:trigger Convert(src[k..])} :: 0 <= k <= |src| ==> tails[k] == Convert(src[k..])
  }

  lemma TailsEnds(src: seq<byte>, tails: seq<seq<byte>>)
    requires Tails(src, tails)
    ensures tails[0] == Convert(src) && tails[|src|] == []
  {
    assert src[0..] == src;
    assert tails[|src|] == Convert(src[|src|..]);
  }

  /** One turn of the loop over `src`: the bytes it appends and how far it moves on. */
  method ConvertOne(src: seq<byte>, i: nat, ghost tails: seq<seq<byte>>) returns (bytes: seq<byte>, w: nat)
    requires i < |src| && Tails(src, tails)
    ensures 1 <= w && i + w <= |src|
    ensures tails[i] == bytes + tails[i + w]
  {
    var d := Decode(src[i..]);
    bytes := Encode(if d.r == RUNE_ERROR then src[i] else d.r);
    w := d.width;
    assert src[i..][w..] == src[i + w..];
    assert tails[i] == Convert(src[i..]) && tails[i + w] == Convert(src[i + w..]);
  }

  lemma Assoc(a: seq<byte>, b: seq<byte>, c: seq<byte>)
    ensures a + (b + c) == a + b + c
  {}

  method ConvertLoop(src: seq<byte>, ghost tails: seq<seq<byte>>) returns (dst: seq<byte>)
    requires Tails(src, tails) && tails[|src|] == []
    ensures dst == tails[0]
  {
    dst := [];
    var i := 0;
    while i < |src|
      invariant 0 <= i <= |src| && dst + tails[i] == tails[0]
    {
      var v, w := ConvertOne(src, i, tails);
      Assoc(dst, v, tails[i + w]);
      dst, i := dst + v, i + w;
    }
  }

  method Convert2Utf8(src: seq<byte>) returns (dst: seq<byte>)
    ensures dst == Convert(src)
  {
    ghost var tails := seq(|src| + 1, k requires 0 <= k <= |src| => Convert(src[k..]));
    TailsEnds(src, tails);
    dst := ConvertLoop(src, tails);
  }

  /** A character other than U+FFFD in front brings no U+FFFD in. */
  lemma NoReplacementPrepend(r: Rune, t: seq<byte>)
    requires Scalar(r) && r != RUNE_ERROR && NoReplacement(t)
    ensures NoReplacement(Encode(r) + t)
  {
    var v, s := Encode(r), Encode(r) + t;
    EncodeParts(r);
    forall i | 0 <= i < |s| - 2 ensures !(s[i] == 0xEF && s[i + 1] == 0xBF && s[i + 2] == 0xBD) {
      if i >= |v| {
        assert s[i] == t[i - |v|] && s[i + 1] == t[i - |v| + 1] && s[i + 2] == t[i - |v| + 2];
      } else if i > 0 {
        assert s[i] == v[i] && 0x80 <= v[i] <= 0xBF;
      }
    }
  }

  /** The output is valid UTF-8 and never contains U+FFFD. */
  lemma {:induction false} ConvertIsClean(s: seq<byte>)
    ensures Valid(Convert(s)) && NoReplacement(Convert(s))
    decreases |s|
  {
    if s != [] {
      var rest := Convert(s[Decode(s).width..]);
      ConvertIsClean(s[Decode(s).width..]);
      EncodeIsChar(Rewrite(s), rest);
      assert Convert(s)[|Encode(Rewrite(s))|..] == rest;
      NoReplacementPrepend(Rewrite(s), rest);
    }
  }

  lemma ReplacementBytes(s: seq<byte>, n: nat)
    requires n <= |s| && Encode(RUNE_ERROR) == s[..n]
    ensures |s| >= 3 && s[0] == 0xEF && s[1] == 0xBF && s[2] == 0xBD
  {
    assert Encode(RUNE_ERROR) == [0xEF, 0xBF, 0xBD];
    assert n == 3 && s[0] == s[..n][0] && s[1] == s[..n][1] && s[2] == s[..n][2];
  }

  lemma CleanHead(s: seq<byte>)
    requires CharLen(s) > 0 && NoReplacement(s)
    ensures Decode(s).width == CharLen(s) && Encode(Rewrite(s)) == s[..CharLen(s)]
  {
    DecodeIsGrammar(s);
    if Decode(s).r == RUNE_ERROR { ReplacementBytes(s, CharLen(s)); }
  }

  lemma {:induction false} CleanIsFixed(s: seq<byte>)
    requires Valid(s) && NoReplacement(s)
    ensures Convert(s) == s
    decreases |s|
  {
    if s != [] {
      CleanHead(s);
      CleanIsFixed(s[CharLen(s)..]);
      assert s == s[..CharLen(s)] + s[CharLen(s)..];
    }
  }

  // ---------- byte by byte, from the grammar ----------

  /** A byte that begins no character becomes the two bytes that encode its own value. */
  lemma BadByte(s: seq<byte>)
    requires s != [] && CharLen(s) == 0
    ensures s[0] >= 0x80
    ensures Convert(s) == (if s[0] < 0xC0 then [0xC2, s[0]] else [0xC3, s[0] - 0x40]) + Convert(s[1..])
  {
    DecodeIsGrammar(s);
  }

  /** U+FFFD becomes the two bytes that encode the value of its first byte. */
  lemma ReplacementCharacter(s: seq<byte>)
    requires |s| >= 3 && s[0] == 0xEF && s[1] == 0xBF && s[2] == 0xBD
    ensures Convert(s) == [0xC3, 0xAF] + Convert(s[3..])
  {
    assert CharLen(s) == 3;
    Code3Parts(s[0], s[1], s[2]);
  }

  /** Any other character stays as it is. */
  lemma OtherCharacter(s: seq<byte>)
    requires CharLen(s) > 0 && !(|s| >= 3 && s[0] == 0xEF && s[1] == 0xBF && s[2] == 0xBD)
    ensures Convert(s) == s[..CharLen(s)] + Convert(s[CharLen(s)..])
  {
    DecodeIsGrammar(s);
    if Decode(s).r == RUNE_ERROR { ReplacementBytes(s, CharLen(s)); }
  }

  /** The text is left alone exactly when it is valid UTF-8 without U+FFFD. */
  lemma {:induction false} FixedIffClean(s: seq<byte>)
    ensures Convert(s) == s <==> Valid(s) && NoReplacement(s)
  {
    ConvertIsClean(s);
    if Valid(s) && NoReplacement(s) { CleanIsFixed(s); }
  }

  lemma {:induction false} ConvertIsIdempotent(s: seq<byte>)
    ensures Convert(Convert(s)) == Convert(s)
  {
    ConvertIsClean(s);
    CleanIsFixed(Convert(s));
  }
}
