/** server/router_optimized.go: exact patterns in one table, wildcard patterns in another. */
module OptimizedRouting {
  import opened Bytes
  import opened Matching
  import opened PatternCache
  import opened Tables

  lemma AppendedBag(t: Table, k: Str, x: SessionId, t': Table)
    requires t' == t[k := (if k in t then t[k] else []) + [x]]
    ensures Bag(t') == Bag(t)[(k, x) := Bag(t)[(k, x)] + 1]
  {
  }

  /** t[subject] = append(t[subject], session). */
  function Appended(t: Table, subject: Str, session: SessionId): (t': Table)
    ensures Bag(t') == Bag(t)[(subject, session) := Bag(t)[(subject, session)] + 1]
  {
    var old' := if subject in t then t[subject] else [];
    var t' := t[subject := old' + [session]];
    AppendedBag(t, subject, session, t');
    t'
  }

  /** The table after Unsubscribe has removed one entry and perhaps the key. */
  function Removed(t: Table, subject: Str, session: SessionId): (t': Table)
  {
    if subject !in t then t else
    var shorter := DropFirst(t[subject], session);
    if shorter == [] then t - {subject} else t[subject := shorter]
  }

  /** The body of Unsubscribe for the table the pattern belongs to. */
  method RemoveEntry(t: Table, subject: Str, session: SessionId) returns (t': Table)
    requires NoEmptyKey(t)
    ensures t' == Removed(t, subject, session)
  {
    if subject !in t {
      return t;
    }
    var found, shorter := RemoveFirst(t[subject], session);
    if !found {
      return t;
    }
    t' := t[subject := shorter];
    if |t'[subject]| == 0 {
      t' := t' - {subject};
    }
  }

  /** The first occurrence of x has gone from every list, and emptied keys with it. */
  ghost predicate RemovedEverywhere(t: Table, t': Table, x: SessionId)
  {
    && t'.Keys <= t.Keys
    && (forall k :: k in t ==> (k in t' <==> DropFirst(t[k], x) != []))
    && (forall k :: k in t' ==> t'[k] == DropFirst(t[k], x))
  }

  /** One of the two loops of RemoveSession. */
  method RemoveEverywhere(t: Table, session: SessionId) returns (t': Table)
    requires NoEmptyKey(t)
    ensures RemovedEverywhere(t, t', session)
  {
    t' := t;
    var todo := t.Keys;
    while todo != {}
      invariant todo <= t.Keys && t'.Keys <= t.Keys && NoEmptyKey(t')
      invariant forall k :: k in todo ==> k in t' && t'[k] == t[k]
      invariant forall k :: k in t && k !in todo ==> (k in t' <==> DropFirst(t[k], session) != [])
      invariant forall k :: k in t' && k !in todo ==> t'[k] == DropFirst(t[k], session)
      decreases todo
    {
      var k :| k in todo;
      t' := RemoveEntry(t', k, session);
      todo := todo - {k};
    }
  }

  lemma RemovedEverywhereBag(t: Table, t': Table, x: SessionId)
    requires RemovedEverywhere(t, t', x)
    ensures Bag(t') == BagStep(Bag(t), Op.RemoveSession(x))
  {
    var b := BagStep(Bag(t), Op.RemoveSession(x));
    forall pr: Pair
      ensures b[pr] == Count(t', pr)
    {
      if pr.0 in t {
        DropFirstTimes(t[pr.0], x, pr.1);
      }
      assert multiset(set q | q in Bag(t) && q.1 == x)[pr] == if pr in Bag(t) && pr.1 == x then 1 else 0;
    }
    BagIsUnique(t', b);
  }

  lemma RemovedBag(t: Table, k: Str, x: SessionId)
    ensures Bag(Removed(t, k, x)) == OneLess(Bag(t), (k, x))
  {
    var b, t' := OneLess(Bag(t), (k, x)), Removed(t, k, x);
    forall pr: Pair
      ensures b[pr] == Count(t', pr)
    {
      if k in t {
        DropFirstTimes(t[k], x, pr.1);
      }
    }
    BagIsUnique(t', b);
  }

  /** An entry removed from the one table that can hold it is removed from the union. */
  lemma RemovedFromOne(a: Table, b: Table, k: Str, x: SessionId)
    ensures k !in a ==> Bag(a) + Bag(Removed(b, k, x)) == OneLess(Bag(a) + Bag(b), (k, x))
    ensures k !in b ==> Bag(Removed(a, k, x)) + Bag(b) == OneLess(Bag(a) + Bag(b), (k, x))
  {
    RemovedBag(a, k, x);
    RemovedBag(b, k, x);
    if k !in a {
      assert Bag(a)[(k, x)] == 0;
    }
    if k !in b {
      assert Bag(b)[(k, x)] == 0;
    }
  }

  /** Removing a session from two tables with different keys removes it from their union. */
  lemma RemoveFromParts(a: multiset<Pair>, b: multiset<Pair>, x: SessionId)
    requires a !! b
    ensures BagStep(a, Op.RemoveSession(x)) + BagStep(b, Op.RemoveSession(x)) == BagStep(a + b, Op.RemoveSession(x))
  {
  }

  /** The for-range with a `seen` set: appends the sessions not yet in the result. */
  method AddUnseen(seen: seq<SessionId>, sessions: seq<SessionId>) returns (result: seq<SessionId>)
    requires NoDup(seen)
    ensures NoDup(result)
    ensures forall x :: x in result <==> x in seen || x in sessions
  {
    result := seen;
    for i := 0 to |sessions|
      invariant NoDup(result)
      invariant forall x :: x in result <==> x in seen || x in sessions[..i]
    {
      assert sessions[..i + 1] == sessions[..i] + [sessions[i]];
      if sessions[i] !in result {
        NoDupAppend(result, sessions[i]);
        result := result + [sessions[i]];
      }
    }
    assert sessions[..|sessions|] == sessions;
  }

  class OptimizedRouter {
    var exactMatches: Table
    var wildcardPatterns: Table
    const cache: Cache

    ghost predicate Valid()
      reads this, cache
    {
      && NoEmptyKey(exactMatches) && NoEmptyKey(wildcardPatterns)
      && (forall k :: k in exactMatches ==> !IsWildcardPattern(k))
      && (forall k :: k in wildcardPatterns ==> IsWildcardPattern(k))
      && Coherent(cache.entries)
    }

    /** Every entry of both tables, with multiplicity. */
    ghost function Held(): (b: multiset<Pair>)
      reads this
    {
      Bag(exactMatches) + Bag(wildcardPatterns)
    }

    constructor (cache: Cache)
      requires Coherent(cache.entries)
      ensures Valid() && Held() == multiset{}
      ensures this.cache == cache
    {
      exactMatches, wildcardPatterns := map[], map[];
      this.cache := cache;
    }

    method Subscribe(subject: Str, session: SessionId)
      requires Valid()
      modifies this, cache
      ensures Valid()
      ensures Held() == BagStep(old(Held()), Op.Subscribe(subject, session))
    {
      if IsWildcardPattern(subject) {
        wildcardPatterns := Appended(wildcardPatterns, subject, session);
      } else {
        exactMatches := Appended(exactMatches, subject, session);
      }
      var _ := cache.Lookup(subject);
    }

    method Unsubscribe(subject: Str, session: SessionId)
      requires Valid()
      modifies this
      ensures Valid()
      ensures Held() == BagStep(old(Held()), Op.Unsubscribe(subject, session))
    {
      RemovedFromOne(exactMatches, wildcardPatterns, subject, session);
      if IsWildcardPattern(subject) {
        wildcardPatterns := RemoveEntry(wildcardPatterns, subject, session);
      } else {
        exactMatches := RemoveEntry(exactMatches, subject, session);
      }
    }

    method RemoveSession(session: SessionId)
      requires Valid()
      modifies this
      ensures Valid()
      ensures Held() == BagStep(old(Held()), Op.RemoveSession(session))
    {
      ghost var a, b := Bag(exactMatches), Bag(wildcardPatterns);
      assert forall pr: Pair :: pr in a ==> !IsWildcardPattern(pr.0);
      assert forall pr: Pair :: pr in b ==> IsWildcardPattern(pr.0);
      ghost var exact, wild := exactMatches, wildcardPatterns;
      exactMatches := RemoveEverywhere(exactMatches, session);
      wildcardPatterns := RemoveEverywhere(wildcardPatterns, session);
      RemovedEverywhereBag(exact, exactMatches, session);
      RemovedEverywhereBag(wild, wildcardPatterns, session);
      RemoveFromParts(a, b, session);
    }

    /** Each session that an entry routes to, exactly once. */
    method FindSubscribers(subject: Str) returns (result: seq<SessionId>)
      requires Valid()
      modifies cache
      ensures Valid()
      ensures NoDup(result)
      ensures forall x :: x in result <==> x in IndexSubscribers(Held(), subject)
    {
      result := [];
      if subject in exactMatches {
        result := AddUnseen(result, exactMatches[subject]);
      }
      var todo := wildcardPatterns.Keys;
      while todo != {}
        invariant Valid() && todo <= wildcardPatterns.Keys
        invariant NoDup(result)
        invariant forall x :: x in result <==>
                    || (subject in exactMatches && x in exactMatches[subject])
                    || exists k :: k in wildcardPatterns && k !in todo && x in wildcardPatterns[k] &&
                         IndexRoutes(k, subject)
        decreases todo
      {
        var k :| k in todo;
        todo := todo - {k};
        var matched := cache.Match(k, subject);
        if matched {
          result := AddUnseen(result, wildcardPatterns[k]);
        }
      }
      forall x
        ensures x in result <==> x in IndexSubscribers(Held(), subject)
      {
        RoutedByTables(x, subject);
      }
    }

    lemma RoutedByTables(x: SessionId, subject: Str)
      requires Valid()
      ensures x in IndexSubscribers(Held(), subject) <==>
              || (subject in exactMatches && x in exactMatches[subject])
              || exists k :: k in wildcardPatterns && x in wildcardPatterns[k] && IndexRoutes(k, subject)
    {
      if x in IndexSubscribers(Held(), subject) {
        var pr :| pr in Held() && IndexRoutes(pr.0, subject) && pr.1 == x;
      }
      if subject in exactMatches && x in exactMatches[subject] {
        assert (subject, x) in Held();
      }
      if k :| k in wildcardPatterns && x in wildcardPatterns[k] && IndexRoutes(k, subject) {
        assert (k, x) in Held();
      }
    }

    method GetSubjectCount() returns (n: nat)
      requires Valid()
      ensures n == |set pr | pr in Held() :: pr.0|
    {
      n := |exactMatches| + |wildcardPatterns|;
      ghost var keys := set pr | pr in Held() :: pr.0;
      forall k
        ensures k in keys <==> k in exactMatches || k in wildcardPatterns
      {
        KeyIsHeld(k);
      }
      assert keys == exactMatches.Keys + wildcardPatterns.Keys;
      assert exactMatches.Keys !! wildcardPatterns.Keys;
    }

    lemma KeyIsHeld(k: Str)
      requires Valid()
      ensures (exists pr :: pr in Held() && pr.0 == k) <==> k in exactMatches || k in wildcardPatterns
    {
      if k in exactMatches {
        assert (k, exactMatches[k][0]) in Held();
      } else if k in wildcardPatterns {
        assert (k, wildcardPatterns[k][0]) in Held();
      }
      forall pr | pr in Held() && pr.0 == k
        ensures k in exactMatches || k in wildcardPatterns
      {
      }
    }

    method GetTotalSubscriptions() returns (n: nat)
      ensures n == |Held()|
    {
      var a := CountEntries(exactMatches);
      var b := CountEntries(wildcardPatterns);
      n := a + b;
    }
  }
}
