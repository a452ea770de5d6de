/** Who must get a publish: from the commands each client has sent to the sessions that accept the frame. */
module Fanout {
  import opened Broker
  import opened Bytes
  import opened Codec
  import opened Matching
  import opened Tables
  import Agreement
  import Completeness
  import Refusals
  import SQ = SendQueue

  // ---------------------------------------------------------------- a session's list is what its client sent

  /** Among the first n messages there is a SUB of p with no UNSUB of p after it. */
  ghost predicate Subscribed(ms: seq<Message>, n: nat, p: Str)
    requires n <= |ms|
  {
    exists i :: 0 <= i < n && ms[i].command == CMD_SUB && ms[i].subject == p &&
      forall j :: i < j < n ==> !(ms[j].command == CMD_UNSUB && ms[j].subject == p)
  }

  lemma SubscribedNext(ms: seq<Message>, n: nat, p: Str)
    requires n < |ms|
    ensures Subscribed(ms, n + 1, p) <==>
              if ms[n].subject == p && ms[n].command == CMD_SUB then true
              else if ms[n].subject == p && ms[n].command == CMD_UNSUB then false
              else Subscribed(ms, n, p)
  {
    if Subscribed(ms, n, p) && !(ms[n].subject == p && ms[n].command == CMD_UNSUB) {
      var i :| 0 <= i < n && ms[i].command == CMD_SUB && ms[i].subject == p &&
        forall j :: i < j < n ==> !(ms[j].command == CMD_UNSUB && ms[j].subject == p);
      assert 0 <= i < n + 1;
    }
    if ms[n].subject == p && ms[n].command == CMD_SUB {
      assert 0 <= n < n + 1;
    }
  }

  /** Session q's list holds the subjects its client has subscribed to in the messages begun so far. */
  ghost predicate ListIsSent(s: State, q: nat)
    requires Shape(s) && q < |s.readers|
  {
    && s.readers[q].begun <= |Inputs(s, q)|
    && forall p :: p in s.readers[q].subjects <==> Subscribed(Inputs(s, q), s.readers[q].begun, p)
  }

  lemma StepListIsSent(s: State, e: Event, q: nat)
    requires Shape(s) && Enabled(s, e) && q < |s.readers| && ListIsSent(s, q)
    ensures Shape(Do(s, e)) && ListIsSent(Do(s, e), q)
  {
    DoKeepsShape(s, e);
    if e.Begin? && e.r == q {
      var k := s.readers[q].begun;
      var subjects := Do(s, e).readers[q].subjects;
      forall p
        ensures p in subjects <==> Subscribed(Inputs(s, q), k + 1, p)
      {
        SubscribedNext(Inputs(s, q), k, p);
      }
    }
  }

  lemma {:induction false} RunListIsSent(s: State, es: seq<Event>, q: nat)
    requires Shape(s) && q < |s.readers| && ListIsSent(s, q) && IsRun(s, es)
    ensures ListIsSent(Exec(s, es), q)
    decreases |es|
  {
    if es == [] {
    } else {
      StepListIsSent(s, es[0], q);
      RunListIsSent(Do(s, es[0]), es[1..], q);
    }
  }

  /** Reader q is not between changing its list and calling the router. */
  predicate Steady(s: State, q: nat)
    requires q < |s.readers|
  {
    s.readers[q].task.Idle? || s.readers[q].task.Sending?
  }

  /** In every run: while an open session is not inside a SUB or UNSUB, the router holds it under exactly the
      subjects that its client has subscribed to and not unsubscribed from since. */
  lemma RouterHoldsWhatWasSent(incoming: seq<Str>, limit: int, capacity: nat, es: seq<Event>, q: nat, p: Str)
    requires q < |incoming| && IsRun(Start(incoming, limit, capacity), es)
    ensures var s := Exec(Start(incoming, limit, capacity), es);
            && s.readers[q].begun <= |Inputs(s, q)|
            && (!s.queues[q].closed && Steady(s, q) ==>
                 ((p, q) in s.pairs <==> Subscribed(Inputs(s, q), s.readers[q].begun, p)))
  {
    var s0 := Start(incoming, limit, capacity);
    RunListIsSent(s0, es, q);
    Agreement.RunInv(s0, es);
    var s := Exec(s0, es);
    if !s.queues[q].closed && Steady(s, q) {
      assert Agreement.Agrees(s.pairs, s.readers[q], q);
      assert p in s.readers[q].subjects <==> p in Agreement.HeldBy(s.pairs, q);
    }
  }

  // ---------------------------------------------------------------- the lookup of a publish

  /** Once made, the lookup of a message is never changed. */
  lemma {:induction false} LookupStays(s: State, es: seq<Event>, r: nat, k: nat)
    requires Shape(s) && IsRun(s, es) && r < |s.readers| && k < s.readers[r].begun && (r, k) in s.lookups
    ensures (r, k) in Exec(s, es).lookups && Exec(s, es).lookups[(r, k)] == s.lookups[(r, k)]
    decreases |es|
  {
    if es == [] {
    } else {
      DoKeepsShape(s, es[0]);
      LookupStays(Do(s, es[0]), es[1..], r, k);
    }
  }

  /** A publish is due to an open, steady session exactly when its client has subscribed to a pattern that
      matches, and not unsubscribed since: for every run up to the publish, and every run after it. */
  lemma DueIffSubscribed(incoming: seq<Str>, limit: int, capacity: nat, es1: seq<Event>, s1: State,
                         r: nat, order: seq<SessionId>, es2: seq<Event>, s2: State, q: nat)
    requires IsRun(Start(incoming, limit, capacity), es1) && s1 == Exec(Start(incoming, limit, capacity), es1)
    requires IsRun(s1, [Begin(r, order)] + es2) && s2 == Exec(s1, [Begin(r, order)] + es2)
    requires r < |incoming| && q < |incoming| && !s1.queues[q].closed && Steady(s1, q)
    requires s1.readers[r].begun < |Inputs(s1, r)| && Inputs(s1, r)[s1.readers[r].begun].command == CMD_PUB
    ensures s1.readers[q].begun <= |Inputs(s1, q)|
    ensures var k := s1.readers[r].begun;
            q in Completeness.Due(s2, r, k) <==>
              exists p :: Subscribed(Inputs(s1, q), s1.readers[q].begun, p) && Matches(p, Inputs(s1, r)[k].subject)
  {
    var k, e := s1.readers[r].begun, Begin(r, order);
    var subject := Inputs(s1, r)[k].subject;
    var s := Do(s1, e);
    DoKeepsShape(s1, e);
    assert ([e] + es2)[1..] == es2;
    assert (r, k) in s.lookups && s.lookups[(r, k)] == s1.pairs;
    LookupStays(s, es2, r, k);
    assert Completeness.Due(s2, r, k) == Subscribers(s1.pairs, subject);
    forall p
      ensures s1.readers[q].begun <= |Inputs(s1, q)|
      ensures (p, q) in s1.pairs <==> Subscribed(Inputs(s1, q), s1.readers[q].begun, p)
    {
      RouterHoldsWhatWasSent(incoming, limit, capacity, es1, q, p);
    }
    assert s1.readers[q].begun <= |Inputs(s1, q)| by {
      RouterHoldsWhatWasSent(incoming, limit, capacity, es1, q, []);
    }
    if q in Subscribers(s1.pairs, subject) {
      var pr :| pr in s1.pairs && Matches(pr.0, subject) && pr.1 == q;
      assert (pr.0, q) in s1.pairs;
    }
  }

  /** From the client's own SUB to the frame in its queue: when a session with a matching subscription is open
      and steady at the moment a publish is looked up, then once the publisher's reader has finished it, the
      session has accepted the frame or is on record as having refused it, and if it stayed open with room
      throughout it has accepted the frame. */
  lemma SubscriberGetsPublish(incoming: seq<Str>, limit: int, capacity: nat, es1: seq<Event>, s1: State,
                              r: nat, order: seq<SessionId>, es2: seq<Event>, s2: State, q: nat, p: Str)
    requires IsRun(Start(incoming, limit, capacity), es1) && s1 == Exec(Start(incoming, limit, capacity), es1)
    requires IsRun(s1, [Begin(r, order)] + es2) && s2 == Exec(s1, [Begin(r, order)] + es2)
    requires r < |incoming| && q < |incoming| && !s1.queues[q].closed && Steady(s1, q)
    requires s1.readers[r].begun < |Inputs(s1, r)| && Inputs(s1, r)[s1.readers[r].begun].command == CMD_PUB
    requires s1.readers[q].begun <= |Inputs(s1, q)| && Subscribed(Inputs(s1, q), s1.readers[q].begun, p)
    requires Matches(p, Inputs(s1, r)[s1.readers[r].begun].subject)
    requires Completeness.Finished(s2, r, s1.readers[r].begun)
    ensures var k := s1.readers[r].begun;
            && (Completeness.AcceptedAt(s2, q, r, k) || (q, r, k) in s2.refused)
            && (SQ.SoundLimit(limit) && Refusals.RoomAllAlong(s1, [Begin(r, order)] + es2, q) ==>
                  Completeness.AcceptedAt(s2, q, r, k))
  {
    var s0, k, rest := Start(incoming, limit, capacity), s1.readers[r].begun, [Begin(r, order)] + es2;
    DueIffSubscribed(incoming, limit, capacity, es1, s1, r, order, es2, s2, q);
    RunJoin(s0, es1, rest);
    Completeness.DeliveredOrRefused(incoming, limit, capacity, es1 + rest, r, k);
    if SQ.SoundLimit(limit) && Refusals.RoomAllAlong(s1, rest, q) {
      assert Enabled(s1, Begin(r, order));
      Refusals.RoomMeansNoRefusal(incoming, limit, capacity, es1, s1, rest, s2, q, r, k);
    }
  }
}
