/** Subscription tables, the (pattern, session) pairs they hold, and what router operations do to the pairs. */
module Tables {
  import opened Bytes
  import opened Matching

  type SessionId = nat
  type Pair = (Str, SessionId)

  /** map[string][]*Session. */
  type Table = map<Str, seq<SessionId>>

  predicate NoDup<T(==)>(s: seq<T>)
  {
    forall i, j :: 0 <= i < j < |s| ==> s[i] != s[j]
  }

  predicate NoEmptyKey(t: Table) { forall k :: k in t ==> t[k] != [] }

  // ---------------------------------------------------------------- filtering slices

  /** The elements of s other than x, in order. */
  function Without<T(==,!new)>(s: seq<T>, x: T): (r: seq<T>)
    ensures |r| <= |s|
    ensures forall y :: y in r <==> y in s && y != x
  {
    if s == [] then [] else
    var last := s[|s| - 1];
    assert s == s[..|s| - 1] + [last];
    Without(s[..|s| - 1], x) + (if last != x then [last] else [])
  }

  lemma NoDupAppend<T>(s: seq<T>, x: T)
    requires NoDup(s) && x !in s
    ensures NoDup(s + [x])
  {
  }

  lemma {:induction false} WithoutNoDup<T(!new)>(s: seq<T>, x: T)
    requires NoDup(s)
    ensures NoDup(Without(s, x))
  {
    if s == [] {
    } else {
      var init, last := s[..|s| - 1], s[|s| - 1];
      WithoutNoDup(init, x);
      assert last !in init;
      NoDupAppend(Without(init, x), last);
    }
  }

  /** `filtered := s[:0]` and appends into the same backing array: the kept elements slide to the front. */
  method CompactInPlace<T(==,!new)>(a: array<T>, x: T) returns (k: nat)
    modifies a
    ensures k <= a.Length
    ensures a[..k] == Without(old(a[..]), x)
  {
    ghost var was := a[..];
    k := 0;
    for i := 0 to a.Length
      invariant k <= i
      invariant a[..k] == Without(was[..i], x)
      invariant forall j :: i <= j < a.Length ==> a[j] == was[j]
    {
      assert was[..i + 1][..i] == was[..i];
      ghost var kept := a[..k];
      if a[i] != x {
        a[k] := a[i];
        k := k + 1;
        assert a[..k] == kept + [was[i]];
      }
    }
    assert was[..a.Length] == was;
  }

  method Compacted<T(==,!new)>(s: seq<T>, x: T) returns (filtered: seq<T>)
    ensures filtered == Without(s, x)
  {
    var backing := new T[|s|](i requires 0 <= i < |s| => s[i]);
    assert backing[..] == s;
    var k := CompactInPlace(backing, x);
    filtered := backing[..k];
  }

  /** How often x occurs in s. */
  function Times(s: seq<SessionId>, x: SessionId): (n: nat)
    ensures n > 0 <==> x in s
  {
    if s == [] then 0 else
    assert s == s[..|s| - 1] + [s[|s| - 1]];
    Times(s[..|s| - 1], x) + (if s[|s| - 1] == x then 1 else 0)
  }

  /** s without the first occurrence of x. */
  function DropFirst(s: seq<SessionId>, x: SessionId): (r: seq<SessionId>)
  {
    if s == [] then [] else
    var init, last := s[..|s| - 1], s[|s| - 1];
    if x in init then DropFirst(init, x) + [last] else if last == x then init else s
  }

  lemma TimesAppend(s: seq<SessionId>, last: SessionId, x: SessionId)
    ensures Times(s + [last], x) == Times(s, x) + (if last == x then 1 else 0)
  {
  }

  lemma {:induction false} DropFirstTimes(s: seq<SessionId>, x: SessionId, y: SessionId)
    ensures Times(DropFirst(s, x), y) == if x == y && x in s then Times(s, y) - 1 else Times(s, y)
  {
    if s == [] {
    } else {
      var init, last := s[..|s| - 1], s[|s| - 1];
      assert s == init + [last];
      DropFirstTimes(init, x, y);
      if x in init {
        TimesAppend(DropFirst(init, x), last, y);
      }
    }
  }

  lemma {:induction false} DropAt(s: seq<SessionId>, i: nat)
    requires i < |s| && s[i] !in s[..i]
    ensures DropFirst(s, s[i]) == s[..i] + s[i + 1..]
  {
    var init := s[..|s| - 1];
    if i == |s| - 1 {
    } else {
      assert init[..i] == s[..i] && init[i] == s[i];
      DropAt(init, i);
      assert s[i + 1..] == init[i + 1..] + [s[|s| - 1]];
    }
  }

  /** `append(s[:i], s[i+1:]...)` at the first occurrence of x. */
  method RemoveFirst(s: seq<SessionId>, x: SessionId) returns (found: bool, r: seq<SessionId>)
    ensures found <==> x in s
    ensures r == DropFirst(s, x)
  {
    for i := 0 to |s|
      invariant x !in s[..i]
    {
      if s[i] == x {
        DropAt(s, i);
        return true, s[..i] + s[i + 1..];
      }
    }
    assert s[..|s|] == s;
    return false, s;
  }

  // ---------------------------------------------------------------- what a table holds

  /** How often the table lists a session under a pattern. */
  ghost function Count(t: Table, pr: Pair): (n: nat)
  {
    if pr.0 in t then Times(t[pr.0], pr.1) else 0
  }

  ghost predicate IsBag(b: multiset<Pair>, t: Table) { forall pr: Pair :: b[pr] == Count(t, pr) }

  ghost function KeyBag(k: Str, list: seq<SessionId>): (b: multiset<Pair>)
    ensures |b| == |list|
  {
    if list == [] then multiset{} else KeyBag(k, list[..|list| - 1]) + multiset{(k, list[|list| - 1])}
  }

  lemma {:induction false} KeyBagAt(k: Str, list: seq<SessionId>, pr: Pair)
    ensures KeyBag(k, list)[pr] == if pr.0 == k then Times(list, pr.1) else 0
  {
    if list == [] {
    } else {
      KeyBagAt(k, list[..|list| - 1], pr);
    }
  }

  lemma AddKey(t: Table, b: multiset<Pair>, k: Str, list: seq<SessionId>)
    requires IsBag(b, t) && k !in t
    ensures IsBag(b + KeyBag(k, list), t[k := list])
  {
    forall pr: Pair
      ensures (b + KeyBag(k, list))[pr] == Count(t[k := list], pr)
    {
      KeyBagAt(k, list, pr);
    }
  }

  lemma {:induction false} BagExists(t: Table)
    ensures exists b :: IsBag(b, t)
    decreases |t|
  {
    if t == map[] {
      assert IsBag(multiset{}, t);
    } else {
      var k :| k in t;
      BagExists(t - {k});
      var rest :| IsBag(rest, t - {k});
      AddKey(t - {k}, rest, k, t[k]);
      assert (t - {k})[k := t[k]] == t;
    }
  }

  /** Every entry of the table, with multiplicity. */
  ghost function Bag(t: Table): (b: multiset<Pair>)
    ensures IsBag(b, t)
  {
    BagExists(t);
    var b :| IsBag(b, t);
    b
  }

  lemma BagIsUnique(t: Table, b: multiset<Pair>)
    requires IsBag(b, t)
    ensures Bag(t) == b
  {
  }

  lemma BagExtend(t: Table, k: Str, list: seq<SessionId>)
    requires k !in t
    ensures |Bag(t[k := list])| == |Bag(t)| + |list|
  {
    AddKey(t, Bag(t), k, list);
    BagIsUnique(t[k := list], Bag(t) + KeyBag(k, list));
  }

  /** The (pattern, session) pairs a table holds. */
  ghost function Pairs(t: Table): (s: set<Pair>)
  {
    set k, x | k in t && x in t[k] :: (k, x)
  }

  predicate DuplicateFree(t: Table) { forall k :: k in t ==> NoDup(t[k]) }

  lemma {:induction false} NoDupTimes(s: seq<SessionId>, x: SessionId)
    requires NoDup(s)
    ensures Times(s, x) <= 1
  {
    if s == [] {
    } else {
      NoDupTimes(s[..|s| - 1], x);
      assert s[|s| - 1] !in s[..|s| - 1];
    }
  }

  /** Without duplicate entries a table is its set of pairs. */
  lemma BagIsPairs(t: Table)
    requires DuplicateFree(t)
    ensures Bag(t) == multiset(Pairs(t))
  {
    forall pr: Pair
      ensures multiset(Pairs(t))[pr] == Count(t, pr)
    {
      if pr.0 in t {
        NoDupTimes(t[pr.0], pr.1);
      }
      assert pr in Pairs(t) <==> pr.0 in t && pr.1 in t[pr.0];
    }
    BagIsUnique(t, multiset(Pairs(t)));
  }

  /** Total length of all lists, added up key by key in any order. */
  method CountEntries(t: Table) returns (count: nat)
    ensures count == |Bag(t)|
  {
    count := 0;
    var todo := t.Keys;
    ghost var done: Table := map[];
    while todo != {}
      invariant todo <= t.Keys
      invariant done == t - todo
      invariant count == |Bag(done)|
      decreases todo
    {
      var k :| k in todo;
      BagExtend(done, k, t[k]);
      done := done[k := t[k]];
      todo := todo - {k};
      count := count + |t[k]|;
    }
    assert done == t;
  }

  /** A set listed in some order, as when Go ranges over a map's keys. */
  method Listed(s: set<SessionId>) returns (list: seq<SessionId>)
    ensures NoDup(list)
    ensures forall x :: x in list <==> x in s
  {
    var todo := s;
    list := [];
    while todo != {}
      invariant todo <= s
      invariant NoDup(list)
      invariant forall x :: x in list <==> x in s - todo
      decreases todo
    {
      var x :| x in todo;
      NoDupAppend(list, x);
      list := list + [x];
      todo := todo - {x};
    }
  }

  // ---------------------------------------------------------------- operations on pairs

  datatype Op = Subscribe(pattern: Str, session: SessionId)
              | Unsubscribe(pattern: Str, session: SessionId)
              | RemoveSession(session: SessionId)

  /** The effect of an operation on a set of pairs: the plain router. */
  function SetStep(s: set<Pair>, op: Op): (s': set<Pair>)
  {
    match op
    case Subscribe(p, x) => s + {(p, x)}
    case Unsubscribe(p, x) => s - {(p, x)}
    case RemoveSession(x) => set pr | pr in s && pr.1 != x
  }

  function OneLess(b: multiset<Pair>, pr: Pair): (b': multiset<Pair>)
  {
    if pr in b then b[pr := b[pr] - 1] else b
  }

  /** The effect on a multiset of pairs: the two-map router appends without looking and removes
      one entry per key. */
  function BagStep(b: multiset<Pair>, op: Op): (b': multiset<Pair>)
  {
    match op
    case Subscribe(p, x) => b[(p, x) := b[(p, x)] + 1]
    case Unsubscribe(p, x) => OneLess(b, (p, x))
    case RemoveSession(x) => b - multiset(set pr | pr in b && pr.1 == x)
  }

  /** The sessions a publish on `subject` reaches through the plain router. */
  function Subscribers(s: set<Pair>, subject: Str): (xs: set<SessionId>)
  {
    set pr | pr in s && Matches(pr.0, subject) :: pr.1
  }

  /** The sessions a publish on `subject` reaches through the two-map router. */
  function IndexSubscribers(b: multiset<Pair>, subject: Str): (xs: set<SessionId>)
  {
    set pr | pr in b && IndexRoutes(pr.0, subject) :: pr.1
  }
}
