/** Keyword search for web fingerprints (core/port/fingerprint/webfinger/matchfinger.go),
    over the bytes of the strings. */
module Keywords {
  import opened Types

  type Str = seq<byte>

  predicate IsAlphaNum(b: byte) {
    48 <= b <= 57 || 97 <= b <= 122 || 65 <= b <= 90
  }

  /** `kw` stands at position `i` of `s`. */
  predicate OccursAt(s: Str, kw: Str, i: int) {
    0 <= i && i + |kw| <= |s| && s[i..i + |kw|] == kw
  }

  predicate Boundary(s: Str, i: int) {
    0 <= i < |s| ==> !IsAlphaNum(s[i])
  }

  /** Keywords of one to four letters and digits must stand alone. */
  predicate Short(kw: Str) {
    1 <= |kw| <= 4 && forall i :: 0 <= i < |kw| ==> IsAlphaNum(kw[i])
  }

  /** Any occurrence counts for a long or non-ASCII keyword; a short one needs an occurrence,
      possibly overlapping others, with no letter or digit on either side. */
  predicate Found(s: Str, kw: Str) {
    exists i :: 0 <= i <= |s| && OccursAt(s, kw, i) && (Short(kw) ==> Boundary(s, i - 1) && Boundary(s, i + |kw|))
  }

  /** A letter or a digit of ASCII. */
  predicate LetterOrDigit(b: byte) {
    var c := b as char;
    '0' <= c <= '9' || 'a' <= c <= 'z' || 'A' <= c <= 'Z'
  }

  lemma AlphaNumIs(b: byte)
    ensures IsAlphaNum(b) <==> LetterOrDigit(b)
  {}

  /** The keyword stands between `a` and `b`, with no letter or digit next to it. */
  predicate StandsAlone(s: Str, kw: Str, a: Str, b: Str) {
    && s == a + kw + b
    && (a == [] || !LetterOrDigit(a[|a| - 1])) && (b == [] || !LetterOrDigit(b[0]))
  }

  lemma Around(s: Str, kw: Str, i: nat)
    requires OccursAt(s, kw, i)
    ensures s == s[..i] + kw + s[i + |kw|..]
  {}

  lemma AroundIs(a: Str, kw: Str, b: Str)
    ensures OccursAt(a + kw + b, kw, |a|)
    ensures forall k :: 0 <= k < |a| ==> (a + kw + b)[k] == a[k]
    ensures forall k :: 0 <= k < |b| ==> (a + kw + b)[|a| + |kw| + k] == b[k]
  {}

  lemma FoundStandsAlone(s: Str, kw: Str, i: nat)
    requires OccursAt(s, kw, i) && Boundary(s, i - 1) && Boundary(s, i + |kw|)
    ensures StandsAlone(s, kw, s[..i], s[i + |kw|..])
  {
    Around(s, kw, i);
    if i > 0 { AlphaNumIs(s[i - 1]); }
    if i + |kw| < |s| { AlphaNumIs(s[i + |kw|]); }
  }

  lemma StandsAloneFound(s: Str, kw: Str, a: Str, b: Str)
    requires StandsAlone(s, kw, a, b)
    ensures Found(s, kw)
  {
    AroundIs(a, kw, b);
    if a != [] { AlphaNumIs(a[|a| - 1]); }
    if b != [] { AlphaNumIs(b[0]); }
    assert OccursAt(s, kw, |a|) && Boundary(s, |a| - 1) && Boundary(s, |a| + |kw|);
  }

  /** A keyword of one to four letters and digits is found where it stands alone. */
  lemma ShortFound(s: Str, kw: Str)
    requires 1 <= |kw| <= 4 && forall i :: 0 <= i < |kw| ==> LetterOrDigit(kw[i])
    ensures Found(s, kw) <==> exists a: Str, b: Str :: StandsAlone(s, kw, a, b)
  {
    if Found(s, kw) {
      assert Short(kw) by { forall i | 0 <= i < |kw| ensures IsAlphaNum(kw[i]) { AlphaNumIs(kw[i]); } }
      var i :| 0 <= i <= |s| && OccursAt(s, kw, i) && Boundary(s, i - 1) && Boundary(s, i + |kw|);
      FoundStandsAlone(s, kw, i);
    }
    if a: Str, b: Str :| StandsAlone(s, kw, a, b) { StandsAloneFound(s, kw, a, b); }
  }

  /** Any other keyword just has to occur. */
  lemma LongFound(s: Str, kw: Str)
    requires !(1 <= |kw| <= 4) || exists i :: 0 <= i < |kw| && !LetterOrDigit(kw[i])
    ensures Found(s, kw) <==> exists a: Str, b: Str :: s == a + kw + b
  {
    assert !Short(kw) by {
      if i :| 0 <= i < |kw| && !LetterOrDigit(kw[i]) { AlphaNumIs(kw[i]); }
    }
    if Found(s, kw) {
      var i :| 0 <= i <= |s| && OccursAt(s, kw, i);
      Around(s, kw, i);
    }
    if a: Str, b: Str :| s == a + kw + b { AroundIs(a, kw, b); }
  }

  method ShouldUseBoundaryMatch(kw: Str) returns (b: bool)
    ensures b == Short(kw)
  {
    if |kw| == 0 || |kw| > 4 {
      return false;
    }
    for i := 0 to |kw|
      invariant forall j :: 0 <= j < i ==> IsAlphaNum(kw[j])
    {
      if !IsAlphaNum(kw[i]) {
        return false;
      }
    }
    b := true;
  }

  /** `strings.Index` from `start` on: the first occurrence, or -1. */
  method IndexFrom(s: Str, kw: Str, start: nat) returns (idx: int)
    requires start <= |s|
    ensures idx == -1 || (start <= idx && OccursAt(s, kw, idx))
    ensures forall i :: start <= i && OccursAt(s, kw, i) ==> idx != -1 && idx <= i
  {
    idx := start;
    while idx + |kw| <= |s|
      invariant start <= idx
      invariant forall i :: start <= i < idx ==> !OccursAt(s, kw, i)
    {
      if s[idx..idx + |kw|] == kw {
        return;
      }
      idx := idx + 1;
    }
    idx := -1;
  }

  method ContainsKeyword(s: Str, kw: Str) returns (b: bool)
    ensures b == Found(s, kw)
  {
    var short := ShouldUseBoundaryMatch(kw);
    if !short {
      var at := IndexFrom(s, kw, 0);
      return at != -1;
    }
    var start := 0;
    while start < |s|
      invariant 0 <= start <= |s|
      invariant forall i :: 0 <= i < start && OccursAt(s, kw, i) ==> !(Boundary(s, i - 1) && Boundary(s, i + |kw|))
    {
      var idx := IndexFrom(s, kw, start);
      if idx == -1 {
        return false;
      }
      var end := idx + |kw|;
      if (idx - 1 < 0 || !IsAlphaNum(s[idx - 1])) && (end >= |s| || !IsAlphaNum(s[end])) {
        return true;
      }
      start := idx + 1;
    }
    b := false;
  }

  /** The exact "any" or "all" over a non-empty list, and false for an empty list or string. */
  method IsKeyword(s: Str, keywords: seq<Str>, or: bool) returns (b: bool)
    ensures b <==>
      && keywords != [] && s != []
      && (if or then exists j :: 0 <= j < |keywords| && Found(s, keywords[j])
          else forall j :: 0 <= j < |keywords| ==> Found(s, keywords[j]))
  {
    if |keywords| == 0 || s == [] {
      return false;
    }
    for j := 0 to |keywords|
      invariant forall i :: 0 <= i < j ==> Found(s, keywords[i]) == !or
    {
      var found := ContainsKeyword(s, keywords[j]);
      if !or && !found {
        return false;
      }
      if or && found {
        return true;
      }
    }
    b := !or;
  }
}
