/** server/router.go: the linear-scan router the server uses. */
module Routing {
  import opened Bytes
  import opened Matching
  import opened Tables

  class Router {
    var subscriptions: Table

    ghost predicate Valid()
      reads this
    {
      NoEmptyKey(subscriptions) && DuplicateFree(subscriptions)
    }

    ghost function Held(): (s: set<Pair>)
      reads this
    {
      Pairs(subscriptions)
    }

    constructor ()
      ensures Valid() && Held() == {}
    {
      subscriptions := map[];
    }

    method Subscribe(subject: Str, session: SessionId)
      requires Valid()
      modifies this
      ensures Valid()
      ensures Held() == SetStep(old(Held()), Op.Subscribe(subject, session))
    {
      var sessions := if subject in subscriptions then subscriptions[subject] else [];
      for i := 0 to |sessions|
        invariant session !in sessions[..i]
      {
        if sessions[i] == session {
          assert old(Held()) == old(Held()) + {(subject, session)};
          return;
        }
      }
      assert sessions[..|sessions|] == sessions;
      NoDupAppend(sessions, session);
      subscriptions := subscriptions[subject := sessions + [session]];
    }

    method Unsubscribe(subject: Str, session: SessionId)
      requires Valid()
      modifies this
      ensures Valid()
      ensures Held() == SetStep(old(Held()), Op.Unsubscribe(subject, session))
    {
      if subject !in subscriptions {
        return;
      }
      WithoutNoDup(subscriptions[subject], session);
      var filtered := Compacted(subscriptions[subject], session);
      subscriptions := subscriptions[subject := filtered];
      if |subscriptions[subject]| == 0 {
        subscriptions := subscriptions - {subject};
      }
    }

    method RemoveSession(session: SessionId)
      requires Valid()
      modifies this
      ensures Valid()
      ensures Held() == SetStep(old(Held()), Op.RemoveSession(session))
    {
      ghost var was := subscriptions;
      var todo := subscriptions.Keys;
      while todo != {}
        invariant todo <= was.Keys && subscriptions.Keys <= was.Keys
        invariant forall k :: k in todo ==> k in subscriptions && subscriptions[k] == was[k]
        invariant forall k :: k in was && k !in todo ==>
                    (k in subscriptions <==> Without(was[k], session) != [])
        invariant forall k :: k in subscriptions && k !in todo ==> subscriptions[k] == Without(was[k], session)
        decreases todo
      {
        var k :| k in todo;
        todo := todo - {k};
        var filtered := Compacted(subscriptions[k], session);
        subscriptions := subscriptions[k := filtered];
        if |subscriptions[k]| == 0 {
          subscriptions := subscriptions - {k};
        }
      }
      forall k | k in subscriptions
        ensures NoDup(subscriptions[k])
      {
        WithoutNoDup(was[k], session);
      }
    }

    /** Each session with a matching pair, exactly once. */
    method FindSubscribers(subject: Str) returns (result: seq<SessionId>)
      ensures NoDup(result)
      ensures forall x :: x in result <==> x in Subscribers(Held(), subject)
    {
      var uniqueSessions: set<SessionId> := {};
      var todo := subscriptions.Keys;
      while todo != {}
        invariant todo <= subscriptions.Keys
        invariant forall x :: x in uniqueSessions <==>
                    exists k :: k in subscriptions && k !in todo && x in subscriptions[k] && Matches(k, subject)
        decreases todo
      {
        var k :| k in todo;
        todo := todo - {k};
        var matched := Match(k, subject);
        if matched {
          uniqueSessions := uniqueSessions + set x | x in subscriptions[k];
        }
      }
      result := Listed(uniqueSessions);
      forall x
        ensures x in uniqueSessions <==> x in Subscribers(Held(), subject)
      {
        if x in uniqueSessions {
          var k :| k in subscriptions && x in subscriptions[k] && Matches(k, subject);
          assert (k, x) in Held();
        }
      }
    }

    method GetSubjectCount() returns (n: nat)
      requires Valid()
      ensures n == |set pr | pr in Held() :: pr.0|
    {
      n := |subscriptions|;
      KeysArePatterns();
    }

    lemma KeysArePatterns()
      requires Valid()
      ensures (set pr | pr in Held() :: pr.0) == subscriptions.Keys
    {
      forall k | k in subscriptions
        ensures exists pr :: pr in Held() && pr.0 == k
      {
        assert (k, subscriptions[k][0]) in Held();
      }
    }

    method GetTotalSubscriptions() returns (n: nat)
      requires Valid()
      ensures n == |Held()|
    {
      n := CountEntries(subscriptions);
      BagIsPairs(subscriptions);
    }
  }
}
