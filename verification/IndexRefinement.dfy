/** Whole runs of router operations: when the two-map router is the plain router, and what differs. */
module IndexRefinement {
  import opened Bytes
  import opened Matching
  import opened OptimizedRouting
  import opened PatternCache
  import opened Routing
  import opened Subjects
  import opened Tables

  /** The pairs the plain router holds after a run of operations. */
  function SetRun(ops: seq<Op>): (s: set<Pair>)
  {
    if ops == [] then {} else SetStep(SetRun(ops[..|ops| - 1]), ops[|ops| - 1])
  }

  /** The entries the two-map router holds after the same run. */
  function BagRun(ops: seq<Op>): (b: multiset<Pair>)
  {
    if ops == [] then multiset{} else BagStep(BagRun(ops[..|ops| - 1]), ops[|ops| - 1])
  }

  /** The operation subscribes a pair that is not held. */
  predicate FreshOp(s: set<Pair>, op: Op)
  {
    op.Subscribe? ==> (op.pattern, op.session) !in s
  }

  predicate FreshRun(ops: seq<Op>)
  {
    forall k :: 0 <= k < |ops| ==> FreshOp(SetRun(ops[..k]), ops[k])
  }

  lemma StepAgreesIff(s: set<Pair>, op: Op)
    ensures BagStep(multiset(s), op) == multiset(SetStep(s, op)) <==> FreshOp(s, op)
  {
  }

  predicate SameAt(ops: seq<Op>, k: nat)
    requires k <= |ops|
  {
    BagRun(ops[..k]) == multiset(SetRun(ops[..k]))
  }

  lemma RunStep(ops: seq<Op>, k: nat)
    requires k < |ops|
    ensures SetRun(ops[..k + 1]) == SetStep(SetRun(ops[..k]), ops[k])
    ensures BagRun(ops[..k + 1]) == BagStep(BagRun(ops[..k]), ops[k])
  {
    assert ops[..k + 1][..k] == ops[..k];
  }

  lemma {:induction false} FreshSame(ops: seq<Op>, k: nat)
    requires FreshRun(ops) && k <= |ops|
    ensures SameAt(ops, k)
  {
    if k == 0 {
    } else {
      FreshSame(ops, k - 1);
      RunStep(ops, k - 1);
      StepAgreesIff(SetRun(ops[..k - 1]), ops[k - 1]);
    }
  }

  /** Throughout a run the two routers hold the same pairs, each once, exactly when the run never
      subscribes a pair that is already held. */
  lemma SamePairsIffFresh(ops: seq<Op>)
    ensures (forall k :: 0 <= k <= |ops| ==> SameAt(ops, k)) <==> FreshRun(ops)
  {
    if FreshRun(ops) {
      forall k | 0 <= k <= |ops|
        ensures SameAt(ops, k)
      {
        FreshSame(ops, k);
      }
    }
    if forall k :: 0 <= k <= |ops| ==> SameAt(ops, k) {
      forall k | 0 <= k < |ops|
        ensures FreshOp(SetRun(ops[..k]), ops[k])
      {
        assert SameAt(ops, k) && SameAt(ops, k + 1);
        RunStep(ops, k);
        StepAgreesIff(SetRun(ops[..k]), ops[k]);
      }
    }
  }

  /** Hence the totals agree, and so do the pattern counts. */
  lemma SameCounts(ops: seq<Op>)
    requires FreshRun(ops)
    ensures |BagRun(ops)| == |SetRun(ops)|
    ensures (set pr | pr in BagRun(ops) :: pr.0) == (set pr | pr in SetRun(ops) :: pr.0)
  {
    FreshSame(ops, |ops|);
    assert ops[..|ops|] == ops;
  }

  predicate RegularRun(ops: seq<Op>)
  {
    forall k :: 0 <= k < |ops| && ops[k].Subscribe? ==> Regular(ops[k].pattern)
  }

  lemma {:induction false} HeldPatternsAreRegular(ops: seq<Op>, pr: Pair)
    requires RegularRun(ops) && pr in SetRun(ops)
    ensures Regular(pr.0)
  {
    var init, op := ops[..|ops| - 1], ops[|ops| - 1];
    if pr in SetRun(init) {
      HeldPatternsAreRegular(init, pr);
    }
  }

  /** After a fresh run over regular patterns, a publish reaches the same sessions through both
      routers, except those whose only matching pattern is the subject followed by ".>". */
  lemma SubscribersDifferOnlyAtBase(ops: seq<Op>, subject: Str, x: SessionId)
    requires FreshRun(ops) && RegularRun(ops)
    ensures var held := SetRun(ops);
            var plain, index := x in Subscribers(held, subject), x in IndexSubscribers(BagRun(ops), subject);
            && (index ==> plain)
            && (plain && !index <==>
                 && (subject + DOT_REST, x) in held
                 && forall p :: (p, x) in held && Matches(p, subject) ==> p == subject + DOT_REST)
  {
    FreshSame(ops, |ops|);
    assert ops[..|ops|] == ops;
    var held := SetRun(ops);
    forall p | (p, x) in held
      ensures IndexRoutes(p, subject) <==> Matches(p, subject) && p != subject + DOT_REST
    {
      HeldPatternsAreRegular(ops, (p, x));
      RegularAgrees(p, subject);
    }
    BaseMatches(subject);
    assert x in Subscribers(held, subject) <==> exists p :: (p, x) in held && Matches(p, subject);
    assert x in IndexSubscribers(BagRun(ops), subject) <==> exists p :: (p, x) in held && IndexRoutes(p, subject) by {
      assert forall p :: (p, x) in BagRun(ops) <==> (p, x) in held;
    }
  }

  // ---------------------------------------------------------------- the routers themselves run these operations

  /** A plain router driven through a run: duplicate-free lists, no empty key, and exactly these pairs. */
  method ReplayPlain(ops: seq<Op>) returns (r: Router)
    ensures fresh(r) && r.Valid() && r.Held() == SetRun(ops)
  {
    r := new Router();
    for i := 0 to |ops|
      invariant fresh(r) && r.Valid() && r.Held() == SetRun(ops[..i])
    {
      RunStep(ops, i);
      match ops[i] {
        case Subscribe(p, x) => r.Subscribe(p, x);
        case Unsubscribe(p, x) => r.Unsubscribe(p, x);
        case RemoveSession(x) => r.RemoveSession(x);
      }
    }
    assert ops[..|ops|] == ops;
  }

  /** A two-map router driven through the same run. */
  method ReplayIndex(ops: seq<Op>) returns (r: OptimizedRouter)
    ensures fresh(r) && fresh(r.cache) && r.Valid() && r.Held() == BagRun(ops)
  {
    var cache := new Cache();
    r := new OptimizedRouter(cache);
    for i := 0 to |ops|
      invariant fresh(r) && fresh(r.cache) && r.Valid() && r.Held() == BagRun(ops[..i])
    {
      RunStep(ops, i);
      match ops[i] {
        case Subscribe(p, x) => r.Subscribe(p, x);
        case Unsubscribe(p, x) => r.Unsubscribe(p, x);
        case RemoveSession(x) => r.RemoveSession(x);
      }
    }
    assert ops[..|ops|] == ops;
  }
}
