/** UTF-8 validity (sections 3 and 4 of RFC 3629) and the truncation used for OK and ERR texts. */
module Utf8 {
  import opened Bytes

  predicate Within(b: Byte, lo: int, hi: int) { lo <= b <= hi }

  predicate Tail(b: Byte) { Within(b, 0x80, 0xBF) }

  /** The allowed second byte after a three- or four-byte lead: no overlong forms, no surrogates,
      nothing above U+10FFFF. */
  predicate Second(lead: Byte, b: Byte)
  {
    if lead == 0xE0 then Within(b, 0xA0, 0xBF)
    else if lead == 0xED then Within(b, 0x80, 0x9F)
    else if lead == 0xF0 then Within(b, 0x90, 0xBF)
    else if lead == 0xF4 then Within(b, 0x80, 0x8F)
    else Tail(b)
  }

  /** Length of the well-formed character s starts with, or 0 when there is none. */
  function CharLen(s: Str): (n: nat)
    ensures n <= 4 && n <= |s|
  {
    if |s| >= 1 && s[0] < 0x80 then 1
    else if |s| >= 2 && Within(s[0], 0xC2, 0xDF) && Tail(s[1]) then 2
    else if |s| >= 3 && Within(s[0], 0xE0, 0xEF) && Second(s[0], s[1]) && Tail(s[2]) then 3
    else if |s| >= 4 && Within(s[0], 0xF0, 0xF4) && Second(s[0], s[1]) && Tail(s[2]) && Tail(s[3]) then 4
    else 0
  }

  /** utf8.ValidString. */
  predicate Valid(s: Str)
    decreases |s|
  {
    s == [] || (CharLen(s) > 0 && Valid(s[CharLen(s)..]))
  }

  // ---------------------------------------------------------------- validity means "encodes scalar values"

  type ScalarValue = c: int | 0 <= c <= 0x10FFFF && !(0xD800 <= c <= 0xDFFF)

  /** The encoding table of section 3 of RFC 3629. */
  function EncodeChar(c: ScalarValue): (s: Str)
    ensures 1 <= |s| <= 4
  {
    var code: int := c;
    var q1, last: Byte := code / 0x40, 0x80 + code % 0x40;
    var q2, third: Byte := q1 / 0x40, 0x80 + q1 % 0x40;
    var q3, second: Byte := q2 / 0x40, 0x80 + q2 % 0x40;
    if code < 0x80 then [code]
    else if code < 0x800 then [0xC0 + q1, last]
    else if code < 0x1_0000 then [0xE0 + q2, third, last]
    else [0xF0 + q3, second, third, last]
  }

  function Horner(high: int, b: Byte): (c: int) { high * 0x40 + (b as int - 0x80) }

  function DecodeChar(s: Str): (c: ScalarValue)
    requires CharLen(s) > 0
  {
    var n := CharLen(s);
    if n == 1 then s[0]
    else if n == 2 then Horner(s[0] as int - 0xC0, s[1])
    else if n == 3 then Horner(Horner(s[0] as int - 0xE0, s[1]), s[2])
    else Horner(Horner(Horner(s[0] as int - 0xF0, s[1]), s[2]), s[3])
  }

  lemma HornerDigits(high: int, b: Byte)
    requires Tail(b)
    ensures Horner(high, b) / 0x40 == high && 0x80 + Horner(high, b) % 0x40 == b
  {
  }

  lemma DecodeEncodes(s: Str)
    requires CharLen(s) > 0
    ensures EncodeChar(DecodeChar(s)) == s[..CharLen(s)]
  {
    var n := CharLen(s);
    if n >= 2 {
      var lead := s[0] as int - (if n == 2 then 0xC0 else if n == 3 then 0xE0 else 0xF0);
      HornerDigits(lead, s[1]);
      if n >= 3 {
        HornerDigits(Horner(lead, s[1]), s[2]);
        if n == 4 {
          HornerDigits(Horner(Horner(lead, s[1]), s[2]), s[3]);
        }
      }
    }
  }

  lemma EncodeIsWellFormed(c: ScalarValue)
    ensures CharLen(EncodeChar(c)) == |EncodeChar(c)|
  {
  }

  ghost predicate IsEncodedScalar(x: Str) { exists c: ScalarValue :: x == EncodeChar(c) }

  predicate IsChar(x: Str) { CharLen(x) == |x| > 0 }

  /** One character of the grammar is one encoded scalar value. */
  lemma CharIffEncodedScalar(x: Str)
    ensures IsChar(x) <==> IsEncodedScalar(x)
  {
    if IsChar(x) {
      DecodeEncodes(x);
      assert x[..|x|] == x;
    }
    if c: ScalarValue :| x == EncodeChar(c) {
      EncodeIsWellFormed(c);
    }
  }

  function Flatten(xs: seq<Str>): (s: Str)
  {
    if xs == [] then [] else xs[0] + Flatten(xs[1..])
  }

  /** Cutting a valid string into its characters. */
  function Chars(s: Str): (xs: seq<Str>)
    requires Valid(s)
    decreases |s|
  {
    if s == [] then [] else [s[..CharLen(s)]] + Chars(s[CharLen(s)..])
  }

  lemma ConsFlatten(x: Str, xs: seq<Str>)
    ensures Flatten([x] + xs) == x + Flatten(xs)
  {
  }

  lemma {:induction false} CharsFlatten(s: Str)
    requires Valid(s)
    ensures Flatten(Chars(s)) == s
    decreases |s|
  {
    if s == [] {
    } else {
      var n := CharLen(s);
      var rest := s[n..];
      CharsFlatten(rest);
      assert Chars(s) == [s[..n]] + Chars(rest);
      ConsFlatten(s[..n], Chars(rest));
      assert s == s[..n] + rest;
    }
  }

  lemma CharPrefix(s: Str)
    requires CharLen(s) > 0
    ensures Valid(s[..CharLen(s)]) && IsChar(s[..CharLen(s)])
  {
    var c := s[..CharLen(s)];
    assert CharLen(c) == |c|;
    assert c[|c|..] == [];
  }

  lemma {:induction false} CharsAreChars(s: Str, i: nat)
    requires Valid(s) && i < |Chars(s)|
    ensures IsChar(Chars(s)[i])
    decreases |s|
  {
    if i == 0 {
      CharPrefix(s);
    } else {
      CharsAreChars(s[CharLen(s)..], i - 1);
    }
  }

  /** A character is recognised from its own bytes, whatever follows. */
  lemma CharIsLocal(s: Str, t: Str)
    requires CharLen(s) > 0
    ensures CharLen(s + t) == CharLen(s)
  {
  }

  lemma {:induction false} FlattenIsValid(xs: seq<Str>)
    requires forall i :: 0 <= i < |xs| ==> IsChar(xs[i])
    ensures Valid(Flatten(xs))
  {
    if xs == [] {
    } else {
      FlattenIsValid(xs[1..]);
      var s := Flatten(xs);
      CharIsLocal(xs[0], Flatten(xs[1..]));
      assert s[|xs[0]|..] == Flatten(xs[1..]);
    }
  }

  /** A string is valid exactly when it is a concatenation of encoded Unicode scalar values. */
  lemma ValidIffEncoding(s: Str)
    ensures Valid(s) <==>
            exists xs :: s == Flatten(xs) && forall i :: 0 <= i < |xs| ==> IsEncodedScalar(xs[i])
  {
    if Valid(s) {
      CharsFlatten(s);
      var xs := Chars(s);
      forall i | 0 <= i < |xs|
        ensures IsEncodedScalar(xs[i])
      {
        CharsAreChars(s, i);
        CharIffEncodedScalar(xs[i]);
      }
    }
    if xs :| s == Flatten(xs) && forall i :: 0 <= i < |xs| ==> IsEncodedScalar(xs[i]) {
      forall i | 0 <= i < |xs|
        ensures IsChar(xs[i])
      {
        CharIffEncodedScalar(xs[i]);
      }
      FlattenIsValid(xs);
    }
  }

  // ---------------------------------------------------------------- prefixes

  /** Cutting after a valid prefix cuts between characters: the rest is valid exactly when the whole is. */
  lemma {:induction false} BoundaryCut(a: Str, b: Str)
    requires Valid(a)
    ensures Valid(a + b) <==> Valid(b)
    decreases |a|
  {
    if a == [] {
      assert a + b == b;
    } else {
      var n := CharLen(a);
      CharIsLocal(a, b);
      BoundaryCut(a[n..], b);
      assert (a + b)[n..] == a[n..] + b;
    }
  }

  /** Every cut position in valid text has a character boundary at most three bytes before it. */
  lemma {:induction false} BoundaryNearby(s: Str, k: nat) returns (j: nat)
    requires Valid(s) && k <= |s|
    ensures k - 3 <= j <= k && Valid(s[..j])
    decreases |s|
  {
    var n := CharLen(s);
    if k < n || s == [] {
      j := 0;
    } else {
      var i := BoundaryNearby(s[n..], k - n);
      j := n + i;
      CharPrefix(s);
      BoundaryCut(s[..n], s[n..][..i]);
      assert s[..j] == s[..n] + s[n..][..i];
    }
  }

  // ---------------------------------------------------------------- truncateUTF8

  predicate LongestValidPrefix(out: Str, s: Str)
  {
    && out <= s
    && Valid(out)
    && forall k :: |out| < k <= |s| ==> !Valid(s[..k])
  }

  function Shrink(s: Str): (out: Str)
    ensures LongestValidPrefix(out, s)
  {
    if Valid(s) then s else
    var out := Shrink(s[..|s| - 1]);
    assert forall k :: |out| < k <= |s| ==> !Valid(s[..k]) by {
      assert s[..|s|] == s;
      assert forall k :: 0 <= k < |s| ==> s[..k] == s[..|s| - 1][..k];
    }
    out
  }

  /** What truncateUTF8 returns, as a value. */
  function Truncated(s: Str, maxBytes: nat): (out: Str)
    ensures |out| <= maxBytes && out <= s
    ensures |s| <= maxBytes ==> out == s
    ensures |s| > maxBytes ==> LongestValidPrefix(out, s[..maxBytes])
  {
    if |s| <= maxBytes then s else Shrink(s[..maxBytes])
  }

  lemma LongestIsUnique(a: Str, b: Str, s: Str)
    requires LongestValidPrefix(a, s) && LongestValidPrefix(b, s)
    ensures a == b
  {
    assert a == s[..|a|] && b == s[..|b|];
  }

  /** truncateUTF8: drop bytes from the end until what is left is valid. */
  method TruncateUTF8(s: Str, maxBytes: nat) returns (r: Str)
    ensures |s| <= maxBytes ==> r == s
    ensures |s| > maxBytes ==> LongestValidPrefix(r, s[..maxBytes])
    ensures r == Truncated(s, maxBytes)
  {
    if |s| <= maxBytes {
      return s;
    }
    var out := s[..maxBytes];
    while !Valid(out) && |out| > 0
      invariant |out| <= maxBytes && out == s[..|out|]
      invariant forall k :: |out| < k <= maxBytes ==> !Valid(s[..k])
    {
      out := out[..|out| - 1];
    }
    assert forall k :: 0 <= k <= maxBytes ==> s[..maxBytes][..k] == s[..k];
    LongestIsUnique(out, Truncated(s, maxBytes), s[..maxBytes]);
    if |out| == 0 {
      return [];
    }
    return out;
  }

  /** Truncating valid text loses at most three of the bytes that fit, and cuts between characters. */
  lemma TruncationOfValidText(s: Str, maxBytes: nat)
    requires Valid(s)
    ensures var out := Truncated(s, maxBytes);
            && Valid(out) && Valid(s[|out|..])
            && (|s| > maxBytes ==> |out| >= maxBytes - 3)
  {
    var out := Truncated(s, maxBytes);
    assert out == s[..|out|];
    assert s == out + s[|out|..];
    BoundaryCut(out, s[|out|..]);
    if |s| > maxBytes {
      var j := BoundaryNearby(s, maxBytes);
      assert s[..maxBytes][..j] == s[..j];
    }
  }

  lemma LongestAfter(prefix: Str, out: Str, s: Str)
    requires Valid(prefix) && LongestValidPrefix(out, s)
    ensures LongestValidPrefix(prefix + out, prefix + s)
  {
    BoundaryCut(prefix, out);
    forall k | |prefix + out| < k <= |prefix + s|
      ensures !Valid((prefix + s)[..k])
    {
      var j := k - |prefix|;
      assert (prefix + s)[..k] == prefix + s[..j];
      BoundaryCut(prefix, s[..j]);
    }
  }

  /** Text that follows a valid prefix is truncated as if it stood alone. */
  lemma TruncateAfter(prefix: Str, s: Str, n: nat)
    requires Valid(prefix)
    ensures Truncated(prefix + s, |prefix| + n) == prefix + Truncated(s, n)
  {
    if |s| > n {
      var whole, cut, out := prefix + s, prefix + s[..n], Truncated(s, n);
      assert whole[..|prefix| + n] == cut;
      LongestAfter(prefix, out, s[..n]);
      LongestIsUnique(prefix + out, Truncated(whole, |prefix| + n), cut);
    }
  }

  lemma {:induction false} AsciiIsValid(s: string)
    requires forall i :: 0 <= i < |s| ==> s[i] < 128 as char
    ensures Valid(Ascii(s))
  {
    if s == [] {
    } else {
      AsciiIsValid(s[1..]);
      assert Ascii(s)[1..] == Ascii(s[1..]);
    }
  }
}
