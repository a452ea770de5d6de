/** The compiled-pattern cache of server/router_optimized.go, alone and under concurrent lookups. */
module PatternCache {
  import opened Bytes
  import opened Matching
  import opened Subjects

  ghost predicate Coherent(entries: map<Str, CompiledPattern>)
  {
    forall k :: k in entries ==> entries[k] == Compile(k)
  }

  /** CompiledPattern.matches. */
  method MatchesCompiled(compiled: CompiledPattern, subject: Str) returns (r: bool)
    requires |compiled.segments| >= 1
    ensures r <==> CompiledMatches(compiled, subject)
  {
    if !compiled.hasWildcard && !compiled.hasMultiWildcard {
      return subject == compiled.segments[0];
    }
    r := MatchesSegments(compiled.segments, Split(subject));
  }

  /** compiledPatternCache with compilePattern as its one operation. */
  class Cache {
    var entries: map<Str, CompiledPattern>

    constructor ()
      ensures entries == map[]
    {
      entries := map[];
    }

    method Lookup(pattern: Str) returns (compiled: CompiledPattern)
      requires Coherent(entries)
      modifies this
      ensures compiled == Compile(pattern)
      ensures Coherent(entries) && entries == old(entries)[pattern := Compile(pattern)]
    {
      if pattern in entries {
        return entries[pattern];
      }
      compiled := CompilePattern(pattern);
      entries := entries[pattern := compiled];
    }

    /** OptimizedRouter.Match: cached matching is uncached matching. */
    method Match(pattern: Str, subject: Str) returns (r: bool)
      requires Coherent(entries)
      modifies this
      ensures r <==> CompiledMatches(Compile(pattern), subject)
      ensures Coherent(entries)
    {
      var compiled := Lookup(pattern);
      r := MatchesCompiled(compiled, subject);
    }
  }

  // ---------------------------------------------------------------- concurrent lookups

  /** A goroutine in compilePattern: before the read-locked lookup, waiting for the write lock after a
      miss, or returned with a pointer. */
  datatype Lookup = Fresh | Missed(pattern: Str) | Returned(pattern: Str, pointer: nat)

  /** `heap` holds the compiled patterns ever allocated; `cache` maps a key to an index into it;
      `writes` is the history of keys inserted into the cache. */
  datatype State = State(heap: seq<CompiledPattern>, cache: map<Str, nat>, writes: seq<Str>, lookups: seq<Lookup>)

  datatype Event = ReadLocked(i: nat, pattern: Str) | WriteLocked(i: nat)

  predicate Enabled(s: State, e: Event)
  {
    match e
    case ReadLocked(i, _) => i < |s.lookups| && !s.lookups[i].Missed?
    case WriteLocked(i) => i < |s.lookups| && s.lookups[i].Missed?
  }

  function Do(s: State, e: Event): (s': State)
    requires Enabled(s, e)
  {
    match e
    case ReadLocked(i, p) =>
      s.(lookups := s.lookups[i := if p in s.cache then Returned(p, s.cache[p]) else Missed(p)])
    case WriteLocked(i) =>
      var p := s.lookups[i].pattern;
      if p in s.cache then s.(lookups := s.lookups[i := Returned(p, s.cache[p])])
      else State(s.heap + [Compile(p)], s.cache[p := |s.heap|], s.writes + [p],
                 s.lookups[i := Returned(p, |s.heap|)])
  }

  function Start(callers: nat): (s: State)
  {
    State([], map[], [], seq(callers, _ => Fresh))
  }

  predicate IsRun(s: State, es: seq<Event>)
    decreases |es|
  {
    es == [] || (Enabled(s, es[0]) && IsRun(Do(s, es[0]), es[1..]))
  }

  function Exec(s: State, es: seq<Event>): (s': State)
    requires IsRun(s, es)
    decreases |es|
  {
    if es == [] then s else Exec(Do(s, es[0]), es[1..])
  }

  /** Every key was written once and every entry is a fresh compilation of its key. */
  ghost predicate EntriesSafe(s: State)
  {
    && (forall i, j :: 0 <= i < j < |s.writes| ==> s.writes[i] != s.writes[j])
    && (forall k :: k in s.writes <==> k in s.cache)
    && (forall k :: k in s.cache ==> s.cache[k] < |s.heap| && s.heap[s.cache[k]] == Compile(k))
  }

  /** Every returned lookup points at the one entry of its pattern. */
  ghost predicate Safe(s: State)
  {
    && EntriesSafe(s)
    && (forall i :: 0 <= i < |s.lookups| && s.lookups[i].Returned? ==>
          s.lookups[i].pattern in s.cache && s.lookups[i].pointer == s.cache[s.lookups[i].pattern])
  }

  lemma StepEntries(s: State, e: Event)
    requires EntriesSafe(s) && Enabled(s, e)
    ensures EntriesSafe(Do(s, e))
    ensures forall k :: k in s.cache ==> k in Do(s, e).cache && Do(s, e).cache[k] == s.cache[k]
  {
    if e.WriteLocked? && s.lookups[e.i].pattern !in s.cache {
      assert forall i :: 0 <= i < |s.writes| ==> s.writes[i] in s.writes;
    }
  }

  lemma StepSafe(s: State, e: Event)
    requires Safe(s) && Enabled(s, e)
    ensures Safe(Do(s, e))
  {
    StepEntries(s, e);
  }

  /** Cache coherence under every interleaving of any number of callers. */
  lemma {:induction false} RunSafe(s: State, es: seq<Event>)
    requires Safe(s) && IsRun(s, es)
    ensures Safe(Exec(s, es))
    decreases |es|
  {
    if es == [] {
    } else {
      StepSafe(s, es[0]);
      RunSafe(Do(s, es[0]), es[1..]);
    }
  }

  /** Two callers that looked up the same pattern hold the same compiled pattern, whenever each arrived. */
  lemma CacheCoherence(callers: nat, es: seq<Event>, i: nat, j: nat)
    requires IsRun(Start(callers), es)
    ensures var s := Exec(Start(callers), es);
            && Safe(s)
            && (i < |s.lookups| && j < |s.lookups| && s.lookups[i].Returned? && s.lookups[j].Returned?
                && s.lookups[i].pattern == s.lookups[j].pattern ==>
                  s.lookups[i].pointer == s.lookups[j].pointer < |s.heap|
                  && s.heap[s.lookups[i].pointer] == Compile(s.lookups[i].pattern))
  {
    RunSafe(Start(callers), es);
  }
}
