/** The three wildcard matchers and exactly where they differ. */
module Matching {
  import opened Bytes
  import opened Subjects

  predicate SegmentOk(pattern: Str, segment: Str) { pattern == STAR || pattern == segment }

  predicate Segmentwise(pattern: seq<Str>, subject: seq<Str>)
  {
    |pattern| == |subject| && forall i :: 0 <= i < |pattern| ==> SegmentOk(pattern[i], subject[i])
  }

  // ---------------------------------------------------------------- the server's Router.Match

  /** What a pattern means to the server. Before a trailing ".>" everything is literal, and the
      prefix itself matches too; any other pattern matches segment for segment. */
  predicate Matches(pattern: Str, subject: Str)
  {
    if HasSuffix(pattern, DOT_REST) then Split(Trim(pattern)) <= Split(subject)
    else Segmentwise(Split(pattern), Split(subject))
  }

  /** The segment loop that the server and the client both end with. */
  method CompareSegments(patternParts: seq<Str>, subjectParts: seq<Str>) returns (r: bool)
    requires |patternParts| == |subjectParts|
    ensures r <==> Segmentwise(patternParts, subjectParts)
  {
    for i := 0 to |patternParts|
      invariant forall k :: 0 <= k < i ==> SegmentOk(patternParts[k], subjectParts[k])
    {
      if patternParts[i] == STAR {
        continue;
      }
      if patternParts[i] != subjectParts[i] {
        return false;
      }
    }
    return true;
  }

  /** Router.Match with its equality shortcut and its no-wildcard early exit. */
  method Match(pattern: Str, subject: Str) returns (r: bool)
    ensures r <==> Matches(pattern, subject)
  {
    SplitInjective(pattern, subject);
    if pattern == subject {
      RestSuffix(pattern);
      return true;
    }
    if HasSuffix(pattern, DOT_REST) {
      var prefix := Trim(pattern);
      SegmentPrefix(prefix, subject);
      if prefix + [DOT] <= subject || subject == prefix {
        return true;
      }
      return false;
    }
    var patternParts, subjectParts := Split(pattern), Split(subject);
    if |patternParts| != |subjectParts| {
      return false;
    }
    var hasWildcard := false;
    for i := 0 to |patternParts|
      invariant hasWildcard || STAR !in patternParts[..i]
    {
      if patternParts[i] == STAR {
        hasWildcard := true;
        break;
      }
    }
    if !hasWildcard {
      assert patternParts[..|patternParts|] == patternParts;
      assert Segmentwise(patternParts, subjectParts) ==> patternParts == subjectParts;
      return false;
    }
    r := CompareSegments(patternParts, subjectParts);
  }

  // ---------------------------------------------------------------- the client's matchSubject

  /** The client accepts what the server accepts, and in addition a pattern with a "*" segment and a
      trailing ".>" segment for segment, its ">" taken literally. */
  predicate ClientMatches(pattern: Str, subject: Str)
  {
    || Matches(pattern, subject)
    || (HasSuffix(pattern, DOT_REST) && STAR in Split(pattern) && Segmentwise(Split(pattern), Split(subject)))
  }

  lemma NoStarSegment(pattern: seq<Str>, subject: seq<Str>)
    requires STAR !in pattern
    ensures Segmentwise(pattern, subject) <==> pattern == subject
  {
  }

  /** A whole segment "*" or ">" puts that byte into the pattern. */
  lemma {:induction false} SegmentByte(pattern: Str, segment: Str)
    requires segment in Split(pattern) && segment != []
    ensures segment[0] in pattern
  {
    var i :| 0 <= i < |Split(pattern)| && Split(pattern)[i] == segment;
    SegmentBytes(pattern, i, segment[0]);
  }

  /** matchSubject: the ".>" branch falls through to the "*" branch when it does not match. */
  method MatchSubject(pattern: Str, subject: Str) returns (r: bool)
    ensures r <==> ClientMatches(pattern, subject)
  {
    SplitInjective(pattern, subject);
    RestSuffix(pattern);
    if pattern == subject {
      return true;
    }
    if HasSuffix(pattern, DOT_REST) {
      var prefix := Trim(pattern);
      SegmentPrefix(prefix, subject);
      if prefix + [DOT] <= subject || subject == prefix {
        return true;
      }
    }
    if STAR[0] in pattern {
      var patternParts, subjectParts := Split(pattern), Split(subject);
      if STAR !in patternParts {
        NoStarSegment(patternParts, subjectParts);
      }
      if |patternParts| != |subjectParts| {
        return false;
      }
      r := CompareSegments(patternParts, subjectParts);
      return;
    }
    if STAR in Split(pattern) {
      SegmentByte(pattern, STAR);
    }
    NoStarSegment(Split(pattern), Split(subject));
    return false;
  }

  /** Before a trailing ".>" the server takes "*" literally. */
  lemma StarIsLiteral(pattern: Str, subject: Str)
    requires HasSuffix(pattern, DOT_REST) && STAR in Split(pattern) && STAR !in Split(subject)
    ensures !Matches(pattern, subject)
  {
    RestSuffix(pattern);
    var i :| 0 <= i < |Split(pattern)| && Split(pattern)[i] == STAR;
    assert Split(Trim(pattern))[i] == STAR;
  }

  function Fill(segment: Str): (r: Str) { if segment == STAR then [120] else segment }

  /** The pattern with "x" for every "*": a subject it matches segment for segment. */
  lemma FillStars(pattern: Str) returns (subject: Str)
    ensures Segmentwise(Split(pattern), Split(subject))
    ensures STAR !in Split(subject)
  {
    var parts := Split(pattern);
    var filled := seq(|parts|, i requires 0 <= i < |parts| => Fill(parts[i]));
    SplitIsDotFree(pattern);
    SplitJoin(filled);
    subject := Join(filled);
  }

  /** The client is looser than the server on exactly the patterns that mix "*" with a trailing ".>". */
  lemma ClientLooserIff(pattern: Str)
    ensures (exists subject :: ClientMatches(pattern, subject) && !Matches(pattern, subject)) <==>
            (HasSuffix(pattern, DOT_REST) && STAR in Split(pattern))
  {
    if HasSuffix(pattern, DOT_REST) && STAR in Split(pattern) {
      var subject := FillStars(pattern);
      RestSuffix(pattern);
      assert ClientMatches(pattern, subject);
      StarIsLiteral(pattern, subject);
    }
  }

  // ---------------------------------------------------------------- compiled patterns

  datatype CompiledPattern = CompiledPattern(segments: seq<Str>, hasWildcard: bool, hasMultiWildcard: bool)

  function Compile(pattern: Str): (cp: CompiledPattern)
  {
    CompiledPattern(Split(pattern), STAR in Split(pattern), REST in Split(pattern))
  }

  /** The compilation loop of compilePattern. */
  method CompilePattern(pattern: Str) returns (cp: CompiledPattern)
    ensures cp == Compile(pattern)
  {
    var segments := Split(pattern);
    var star, rest := false, false;
    for i := 0 to |segments|
      invariant star <==> STAR in segments[..i]
      invariant rest <==> REST in segments[..i]
    {
      if segments[i] == STAR {
        star := true;
      } else if segments[i] == REST {
        rest := true;
      }
      assert segments[..i + 1] == segments[..i] + [segments[i]];
    }
    assert segments[..|segments|] == segments;
    cp := CompiledPattern(segments, star, rest);
  }

  /** What a segment list with wildcards means to matchesSegments: a ">" may only stand last and
      takes one segment or more. */
  predicate SegmentsMatch(pattern: seq<Str>, subject: seq<Str>)
    requires |pattern| >= 1
  {
    var last := |pattern| - 1;
    if REST in pattern then
      && pattern[last] == REST && REST !in pattern[..last] && |subject| >= |pattern|
      && Segmentwise(pattern[..last], subject[..last])
    else Segmentwise(pattern, subject)
  }

  /** matchesSegments: the subject index si follows the pattern index. */
  method MatchesSegments(segments: seq<Str>, subjectSegments: seq<Str>) returns (r: bool)
    requires |segments| >= 1
    ensures r <==> SegmentsMatch(segments, subjectSegments)
  {
    var si := 0;
    for pi := 0 to |segments|
      invariant si == pi <= |subjectSegments|
      invariant REST !in segments[..pi]
      invariant Segmentwise(segments[..pi], subjectSegments[..pi])
    {
      var patternSeg := segments[pi];
      assert segments[..pi + 1] == segments[..pi] + [patternSeg];
      if patternSeg == REST {
        if pi != |segments| - 1 {
          assert pi < |segments| - 1 && segments[..|segments| - 1][pi] == REST;
          return false;
        }
        return si < |subjectSegments|;
      }
      if si >= |subjectSegments| {
        return false;
      }
      assert subjectSegments[..pi + 1] == subjectSegments[..pi] + [subjectSegments[pi]];
      if patternSeg == STAR {
        si := si + 1;
        continue;
      }
      if patternSeg != subjectSegments[si] {
        return false;
      }
      si := si + 1;
    }
    assert segments[..|segments|] == segments;
    assert subjectSegments[..|subjectSegments|] == subjectSegments;
    return si == |subjectSegments|;
  }

  /** CompiledPattern.matches: without a whole-segment wildcard only the first segment is compared. */
  predicate CompiledMatches(cp: CompiledPattern, subject: Str)
    requires |cp.segments| >= 1
  {
    if !cp.hasWildcard && !cp.hasMultiWildcard then subject == cp.segments[0]
    else SegmentsMatch(cp.segments, Split(subject))
  }

  /** isWildcardPattern looks for the bytes, not for whole segments. */
  predicate IsWildcardPattern(pattern: Str) { STAR[0] in pattern || REST[0] in pattern }

  /** How the two-map router routes: exact patterns by lookup, the rest by compiled matching. */
  predicate IndexRoutes(pattern: Str, subject: Str)
  {
    if IsWildcardPattern(pattern) then CompiledMatches(Compile(pattern), subject) else pattern == subject
  }

  /** The patterns on which the two routers are meant to agree. */
  predicate Regular(pattern: Str)
  {
    var parts := Split(pattern);
    if REST in parts then
      |parts| >= 2 && parts[|parts| - 1] == REST && REST !in parts[..|parts| - 1] && STAR !in parts
    else STAR in parts || !IsWildcardPattern(pattern) || |parts| == 1
  }

  lemma {:induction false} WholeSegmentBytes(pattern: Str)
    ensures !IsWildcardPattern(pattern) ==> STAR !in Split(pattern) && REST !in Split(pattern)
  {
    if STAR in Split(pattern) {
      SegmentByte(pattern, STAR);
    }
    if REST in Split(pattern) {
      SegmentByte(pattern, REST);
    }
  }

  lemma RestOnlyLast(pattern: Str, subject: Str)
    requires Regular(pattern) && REST in Split(pattern)
    ensures IndexRoutes(pattern, subject) <==> Matches(pattern, subject) && pattern != subject + DOT_REST
  {
    var segs := Split(subject);
    WholeSegmentBytes(pattern);
    RestSuffix(pattern);
    var p := Split(Trim(pattern));
    assert Split(pattern)[..|p|] == p;
    SplitInjective(Trim(pattern), subject);
    assert pattern == subject + DOT_REST <==> subject == Trim(pattern);
    assert STAR !in p;
    if |segs| >= |p| {
      NoStarSegment(p, segs[..|p|]);
      assert p <= segs <==> p == segs[..|p|];
      assert |segs| == |p| ==> segs[..|p|] == segs;
    }
  }

  lemma RegularAgrees(pattern: Str, subject: Str)
    requires Regular(pattern)
    ensures IndexRoutes(pattern, subject) <==> Matches(pattern, subject) && pattern != subject + DOT_REST
  {
    var parts, segs := Split(pattern), Split(subject);
    RestSuffix(pattern);
    SplitInjective(pattern, subject);
    SplitDotRest(subject);
    WholeSegmentBytes(pattern);
    if REST in parts {
      RestOnlyLast(pattern, subject);
    } else {
      assert pattern != subject + DOT_REST;
      if STAR !in parts {
        NoStarSegment(parts, segs);
        if |parts| == 1 {
          JoinSplit(pattern);
        }
      }
    }
  }

  /** "a*.b": the compiled form compares only the first segment and misses the pattern's own text. */
  lemma LostOwnSubject(pattern: Str) returns (subject: Str)
    requires !Regular(pattern) && REST !in Split(pattern)
    ensures Matches(pattern, subject) && pattern != subject + DOT_REST && !IndexRoutes(pattern, subject)
  {
    subject := pattern;
    RestSuffix(pattern);
    assert |pattern| != |subject + DOT_REST|;
    SplitIsDotFree(pattern);
    if pattern == Split(pattern)[0] {
      SplitDotFree(pattern);
    }
  }

  /** ">" alone: the index delivers everything, the server only the subject ">". */
  lemma BareRest(pattern: Str) returns (subject: Str)
    requires REST in Split(pattern) && |Split(pattern)| == 1
    ensures IndexRoutes(pattern, subject) && !Matches(pattern, subject)
  {
    subject := [];
    WholeSegmentBytes(pattern);
    RestSuffix(pattern);
    assert Split(subject)[0] == [];
  }

  /** "a.>.b.>": the index delivers nothing, the server takes the first ">" literally. */
  lemma MiddleRest(pattern: Str) returns (subject: Str)
    requires |Split(pattern)| >= 2 && REST in Split(pattern)[..|Split(pattern)| - 1]
    requires Split(pattern)[|Split(pattern)| - 1] == REST
    ensures Matches(pattern, subject) && pattern != subject + DOT_REST && !IndexRoutes(pattern, subject)
  {
    RestSuffix(pattern);
    WholeSegmentBytes(pattern);
    subject := pattern;
    assert |pattern| != |subject + DOT_REST|;
  }

  lemma WholeIsPrefix(pattern: seq<Str>, subject: seq<Str>)
    requires |pattern| >= 1 && pattern[|pattern| - 1] == REST && REST !in pattern[..|pattern| - 1]
    requires Segmentwise(pattern, subject)
    ensures SegmentsMatch(pattern, subject)
  {
  }

  /** "a.*.>": the index lets "*" stand for any segment, the server takes it literally. */
  lemma StarBeforeRest(pattern: Str) returns (subject: Str)
    requires |Split(pattern)| >= 2 && Split(pattern)[|Split(pattern)| - 1] == REST
    requires REST !in Split(pattern)[..|Split(pattern)| - 1] && STAR in Split(pattern)
    ensures IndexRoutes(pattern, subject) && !Matches(pattern, subject)
  {
    WholeSegmentBytes(pattern);
    RestSuffix(pattern);
    subject := FillStars(pattern);
    WholeIsPrefix(Split(pattern), Split(subject));
    StarIsLiteral(pattern, subject);
  }

  /** An irregular pattern has a subject that only one of the two routers delivers. */
  lemma IrregularDiffers(pattern: Str) returns (subject: Str)
    requires !Regular(pattern)
    ensures !(IndexRoutes(pattern, subject) <==> Matches(pattern, subject) && pattern != subject + DOT_REST)
  {
    var parts := Split(pattern);
    WholeSegmentBytes(pattern);
    RestSuffix(pattern);
    if REST !in parts {
      subject := LostOwnSubject(pattern);
    } else if |parts| == 1 {
      subject := BareRest(pattern);
    } else if parts[|parts| - 1] != REST {
      subject := pattern;
      SplitDotRest(subject);
      assert |pattern| != |subject + DOT_REST|;
    } else if REST in parts[..|parts| - 1] {
      subject := MiddleRest(pattern);
    } else {
      subject := StarBeforeRest(pattern);
    }
  }

  /** The index routes a pattern like the server's Match, except that "a.>" leaves out "a" itself,
      for every subject - exactly when the pattern is regular. */
  lemma IndexAgreesIffRegular(pattern: Str)
    ensures (forall subject :: IndexRoutes(pattern, subject) <==>
                               Matches(pattern, subject) && pattern != subject + DOT_REST) <==>
            Regular(pattern)
  {
    if Regular(pattern) {
      forall subject
        ensures IndexRoutes(pattern, subject) <==> Matches(pattern, subject) && pattern != subject + DOT_REST
      {
        RegularAgrees(pattern, subject);
      }
    } else {
      var subject := IrregularDiffers(pattern);
    }
  }

  // ---------------------------------------------------------------- the documented meaning

  /** The wildcard rules as documented: "*" is any one segment, a final ">" one segment or more. The user
      documentation says nothing of a ">" that is not last or of "*" beside ">"; that a misplaced ">"
      matches nothing, and that "*" keeps its meaning before a final ">", is what the two-map router's
      comments and code say. */
  predicate Documented(pattern: Str, subject: Str)
  {
    SegmentsMatch(Split(pattern), Split(subject))
  }

  /** A ">" stands last, after at least one segment, and all segments before it are literal. */
  predicate Conventional(pattern: Str)
  {
    var parts := Split(pattern);
    REST in parts ==>
      |parts| >= 2 && parts[|parts| - 1] == REST && REST !in parts[..|parts| - 1] && STAR !in parts
  }

  /** A subscriber of "a.>" gets "a". */
  lemma BaseMatches(subject: Str)
    ensures Matches(subject + DOT_REST, subject)
  {
  }

  /** The server's Match follows the documented rules for every subject - letting "a.>" match "a" as
      well - exactly on conventional patterns. */
  lemma DocumentedIffConventional(pattern: Str)
    ensures (forall subject :: Matches(pattern, subject) <==>
                               Documented(pattern, subject) || pattern == subject + DOT_REST) <==>
            Conventional(pattern)
  {
    WholeSegmentBytes(pattern);
    RestSuffix(pattern);
    if Conventional(pattern) {
      forall subject
        ensures Matches(pattern, subject) <==> Documented(pattern, subject) || pattern == subject + DOT_REST
      {
        SplitDotRest(subject);
        if REST in Split(pattern) {
          RestOnlyLast(pattern, subject);
          BaseMatches(subject);
        }
      }
    } else {
      var subject := IrregularDiffers(pattern);
      BaseMatches(subject);
    }
  }

  // ---------------------------------------------------------------- what the two wildcards stand for

  lemma OneSegmentIffDotFree(s: Str)
    ensures |Split(s)| == 1 <==> DOT !in s
  {
    if DOT in s {
      var i :| 0 <= i < |s| && s[i] == DOT;
      assert s == s[..i] + [DOT] + s[i + 1..];
      SplitAtDot(s[..i], s[i + 1..]);
    } else {
      SplitDotFree(s);
    }
  }

  /** A pattern without a wildcard segment matches itself and nothing else. */
  lemma LiteralIsExact(pattern: Str, subject: Str)
    requires Ascii("*") !in Split(pattern) && Ascii(">") !in Split(pattern)
    ensures Matches(pattern, subject) <==> pattern == subject
    ensures ClientMatches(pattern, subject) <==> pattern == subject
    ensures SegmentsMatch(Split(pattern), Split(subject)) <==> pattern == subject
  {
    assert Ascii("*") == STAR && Ascii(">") == REST;
    RestSuffix(pattern);
    NoStarSegment(Split(pattern), Split(subject));
    SplitInjective(pattern, subject);
  }

  /** The same segments in front of pattern and subject change nothing. */
  lemma SameFront(front: seq<Str>, pattern: Str, subject: seq<Str>)
    requires Segmentwise(front + [pattern], front + subject)
    ensures |subject| == 1 && SegmentOk(pattern, subject[0])
  {
    assert (front + [pattern])[|front|] == pattern;
    assert (front + subject)[|front|] == subject[0];
  }

  /** A final ".*" takes the place of any one segment, and of nothing else: after a dot, any bytes without a
      dot. The compiled matcher agrees unless a segment before it is ">". */
  lemma StarIsAnySegment(a: Str, tail: Str)
    ensures Matches(a + Ascii(".*"), a + Ascii(".") + tail) <==> Ascii(".")[0] !in tail
    ensures ClientMatches(a + Ascii(".*"), a + Ascii(".") + tail) <==> Ascii(".")[0] !in tail
    ensures Ascii(">") !in Split(a) ==>
              (SegmentsMatch(Split(a + Ascii(".*")), Split(a + Ascii(".") + tail)) <==> Ascii(".")[0] !in tail)
  {
    var pattern, subject := a + Ascii(".*"), a + Ascii(".") + tail;
    assert pattern == a + [DOT] + STAR && subject == a + [DOT] + tail && Ascii(">") == REST;
    SplitAtDot(a, STAR);
    SplitDotFree(STAR);
    SplitAtDot(a, tail);
    OneSegmentIffDotFree(tail);
    assert pattern[|pattern| - 1] == 42;
    if Segmentwise(Split(pattern), Split(subject)) {
      SameFront(Split(a), STAR, Split(tail));
    }
  }

  /** A final ".>" takes the place of one segment or more: everything after a dot. For the server the base
      subject matches too; the client needs a prefix without "*", the compiled matcher one without wildcards. */
  lemma RestIsAnyTail(a: Str, subject: Str)
    ensures Matches(a + Ascii(".>"), subject) <==> subject == a || a + Ascii(".") <= subject
    ensures Ascii("*") !in Split(a) ==>
              (ClientMatches(a + Ascii(".>"), subject) <==> subject == a || a + Ascii(".") <= subject)
    ensures Ascii("*") !in Split(a) && Ascii(">") !in Split(a) ==>
              (SegmentsMatch(Split(a + Ascii(".>")), Split(subject)) <==> a + Ascii(".") <= subject)
  {
    var pattern := a + Ascii(".>");
    assert pattern == a + DOT_REST && Ascii(".") == [DOT] && Ascii("*") == STAR && Ascii(">") == REST;
    assert HasSuffix(pattern, DOT_REST) && Trim(pattern) == a;
    SegmentPrefix(a, subject);
    SplitDotRest(a);
    var front, parts := Split(a), Split(pattern);
    assert parts[..|parts| - 1] == front;
    SplitInjective(a, subject);
    if STAR !in front {
      assert STAR !in parts;
      NoStarSegment(parts, Split(subject));
      if |Split(subject)| > |front| {
        NoStarSegment(front, Split(subject)[..|front|]);
      }
    }
  }
}
