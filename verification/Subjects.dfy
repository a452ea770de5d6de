/** Dot-separated subjects: strings.Split on "." and the facts that tie strings to segments. */
module Subjects {
  import opened Bytes

  const DOT: Byte := 46
  const STAR: Str := [42]
  const REST: Str := [62]  // ">"
  const DOT_REST: Str := [46, 62]  // ".>"

  /** Puts a byte in front of the first segment. */
  function Push(b: Byte, parts: seq<Str>): (r: seq<Str>)
    requires |parts| >= 1
    ensures |r| == |parts|
  {
    [[b] + parts[0]] + parts[1..]
  }

  /** strings.Split(s, "."): n dots give n + 1 segments, empty ones included. */
  function Split(s: Str): (parts: seq<Str>)
    ensures |parts| >= 1
  {
    if s == [] then [[]] else
    var rest := Split(s[1..]);
    if s[0] == DOT then [[]] + rest else Push(s[0], rest)
  }

  function Join(parts: seq<Str>): (s: Str)
    requires |parts| >= 1
  {
    if |parts| == 1 then parts[0] else parts[0] + [DOT] + Join(parts[1..])
  }

  predicate DotFree(parts: seq<Str>)
  {
    forall i :: 0 <= i < |parts| ==> DOT !in parts[i]
  }

  lemma {:induction false} SplitIsDotFree(s: Str)
    ensures DotFree(Split(s))
  {
    if s == [] {
    } else {
      SplitIsDotFree(s[1..]);
    }
  }

  lemma {:induction false} JoinHead(b: Byte, parts: seq<Str>)
    requires |parts| >= 1
    ensures Join(Push(b, parts)) == [b] + Join(parts)
  {
    assert Push(b, parts)[1..] == parts[1..];
    if |parts| > 1 {
      Assoc([b], parts[0], [DOT]);
      Assoc([b], parts[0] + [DOT], Join(parts[1..]));
    }
  }

  lemma {:induction false} JoinSplit(s: Str)
    ensures Join(Split(s)) == s
  {
    if s == [] {
    } else {
      var rest := Split(s[1..]);
      JoinSplit(s[1..]);
      if s[0] == DOT {
        assert ([[]] + rest)[1..] == rest;
        assert s == [DOT] + s[1..];
      } else {
        JoinHead(s[0], rest);
        assert s == [s[0]] + s[1..];
      }
    }
  }

  /** Splitting is injective. */
  lemma SplitInjective(s: Str, t: Str)
    ensures Split(s) == Split(t) <==> s == t
  {
    JoinSplit(s);
    JoinSplit(t);
  }

  lemma PushConcat(b: Byte, p: seq<Str>, q: seq<Str>)
    requires |p| >= 1
    ensures Push(b, p + q) == Push(b, p) + q
  {
  }

  /** A dot splits cleanly: the segments of a.b are those of a followed by those of b. */
  lemma {:induction false} SplitAtDot(a: Str, b: Str)
    ensures Split(a + [DOT] + b) == Split(a) + Split(b)
  {
    var s := a + [DOT] + b;
    if a == [] {
      assert s == [DOT] + b;
      assert s[1..] == b;
    } else {
      assert s[1..] == a[1..] + [DOT] + b;
      SplitAtDot(a[1..], b);
      var rest := Split(a[1..]);
      if a[0] == DOT {
        Assoc([[]], rest, Split(b));
      } else {
        PushConcat(a[0], rest, Split(b));
      }
    }
  }

  lemma {:induction false} SplitDotFree(s: Str)
    requires DOT !in s
    ensures Split(s) == [s]
  {
    if s == [] {
    } else {
      SplitDotFree(s[1..]);
      assert s == [s[0]] + s[1..];
    }
  }

  lemma {:induction false} SplitJoin(parts: seq<Str>)
    requires |parts| >= 1 && DotFree(parts)
    ensures Split(Join(parts)) == parts
  {
    SplitDotFree(parts[0]);
    if |parts| == 1 {
      assert parts == [parts[0]];
    } else {
      SplitJoin(parts[1..]);
      SplitAtDot(parts[0], Join(parts[1..]));
      assert parts == [parts[0]] + parts[1..];
    }
  }

  lemma {:induction false} JoinConcat(a: seq<Str>, b: seq<Str>)
    requires |a| >= 1 && |b| >= 1
    ensures Join(a + b) == Join(a) + [DOT] + Join(b)
  {
    if |a| == 1 {
      assert (a + b)[1..] == b;
    } else {
      assert (a + b)[1..] == a[1..] + b;
      JoinConcat(a[1..], b);
      var x, y, z := a[0] + [DOT], Join(a[1..]), [DOT] + Join(b);
      assert Join(a + b) == x + (y + [DOT] + Join(b));
      assert x + (y + [DOT] + Join(b)) == (x + y) + [DOT] + Join(b);
    }
  }

  /** The string test "prefix, or something that starts with prefix and a dot" is the segment-prefix test. */
  lemma SegmentPrefix(prefix: Str, s: Str)
    ensures (prefix + [DOT] <= s || s == prefix) <==> Split(prefix) <= Split(s)
  {
    var p, t := Split(prefix), Split(s);
    if prefix + [DOT] <= s {
      var b := s[|prefix| + 1..];
      assert s == prefix + [DOT] + b;
      SplitAtDot(prefix, b);
    }
    if p <= t && s != prefix {
      SplitInjective(prefix, s);
      var b := t[|p|..];
      assert t == p + b;
      assert b == [] ==> t == p;
      JoinConcat(p, b);
      JoinSplit(prefix);
      JoinSplit(s);
      assert s == prefix + [DOT] + Join(b);
    }
  }

  predicate HasSuffix(s: Str, suffix: Str)
  {
    |suffix| <= |s| && s[|s| - |suffix|..] == suffix
  }

  /** strings.TrimSuffix, for a suffix that is there. */
  function Trim(s: Str): (prefix: Str)
    requires HasSuffix(s, DOT_REST)
    ensures s == prefix + DOT_REST
  {
    s[..|s| - 2]
  }

  lemma SplitDotRest(a: Str)
    ensures Split(a + DOT_REST) == Split(a) + [REST]
  {
    assert a + DOT_REST == a + [DOT] + REST;
    SplitAtDot(a, REST);
    SplitDotFree(REST);
  }

  lemma RestLast(s: Str)
    requires |Split(s)| >= 2 && Split(s)[|Split(s)| - 1] == REST
    ensures HasSuffix(s, DOT_REST)
  {
    var parts := Split(s);
    var a := parts[..|parts| - 1];
    assert parts == a + [REST];
    JoinConcat(a, [REST]);
    JoinSplit(s);
    assert s == Join(a) + [DOT] + REST;
    assert s[|s| - 2..] == DOT_REST;
  }

  /** A string ends in ".>" exactly when it has two segments or more and the last one is ">". */
  lemma RestSuffix(s: Str)
    ensures HasSuffix(s, DOT_REST) <==> |Split(s)| >= 2 && Split(s)[|Split(s)| - 1] == REST
    ensures HasSuffix(s, DOT_REST) ==> Split(s) == Split(Trim(s)) + [REST]
  {
    if HasSuffix(s, DOT_REST) {
      SplitDotRest(Trim(s));
    }
    if |Split(s)| >= 2 && Split(s)[|Split(s)| - 1] == REST {
      RestLast(s);
    }
  }

  /** Segments are made of the string's own bytes. */
  lemma {:induction false} SegmentBytes(s: Str, i: nat, b: Byte)
    requires i < |Split(s)| && b in Split(s)[i]
    ensures b in s
  {
    if s[0] == DOT {
      SegmentBytes(s[1..], i - 1, b);
    } else if i > 0 || b != s[0] {
      SegmentBytes(s[1..], i, b);
    }
  }
}
