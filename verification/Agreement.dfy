/** Session/router agreement: an open session's own list of subjects is what the router holds for it. */
module Agreement {
  import opened Broker
  import opened Bytes
  import opened Codec
  import opened Tables
  import SQ = SendQueue

  /** The patterns under which the router holds a session. */
  function HeldBy(pairs: set<Pair>, q: SessionId): (ps: set<Str>)
  {
    set pr | pr in pairs && pr.1 == q :: pr.0
  }

  function Elements(s: seq<Str>): (xs: set<Str>) { set x | x in s }

  /** The list has no duplicates and matches the router, up to the one subject whose router call is
      still to come. */
  predicate Agrees(pairs: set<Pair>, rd: Reader, q: SessionId)
  {
    && NoDup(rd.subjects)
    && match rd.task {
         case Appended(x) => x in rd.subjects && HeldBy(pairs, q) == Elements(rd.subjects) - {x}
         case Filtered(x) => x !in rd.subjects && HeldBy(pairs, q) - {x} == Elements(rd.subjects)
         case _ => HeldBy(pairs, q) == Elements(rd.subjects)
       }
  }

  predicate Inv(s: State)
  {
    && Shape(s)
    && (forall q :: q in s.removed ==> q < |s.queues| && s.queues[q].closed)
    && (forall q :: 0 <= q < |s.queues| && !s.queues[q].closed ==> Agrees(s.pairs, s.readers[q], q))
  }

  lemma HeldByStep(pairs: set<Pair>, op: Op, q: SessionId)
    ensures var held, held' := HeldBy(pairs, q), HeldBy(SetStep(pairs, op), q);
            && (op.session != q ==> held' == held)
            && (op.session == q && op.Subscribe? ==> held' == held + {op.pattern})
            && (op.session == q && op.Unsubscribe? ==> held' == held - {op.pattern})
            && (op.session == q && op.RemoveSession? ==> held' == {})
  {
  }

  lemma HandleAgrees(pairs: set<Pair>, rd: Reader, q: SessionId, m: Message, order: seq<SessionId>)
    requires Agrees(pairs, rd, q) && rd.task.Idle?
    ensures var (subjects, task) := Handle(q, rd.subjects, m, order);
            Agrees(pairs, Reader(subjects, rd.begun + 1, task), q)
  {
    if m.command == CMD_SUB && m.subject !in rd.subjects {
      NoDupAppend(rd.subjects, m.subject);
      assert Elements(rd.subjects + [m.subject]) == Elements(rd.subjects) + {m.subject};
    }
    if m.command == CMD_UNSUB {
      WithoutNoDup(rd.subjects, m.subject);
      assert Elements(Without(rd.subjects, m.subject)) == Elements(rd.subjects) - {m.subject};
    }
  }

  /** The router operation of a step, if it has one. */
  function OpOf(s: State, e: Event): (op: Op)
    requires Shape(s) && Enabled(s, e) && (e.RouterSubscribe? || e.RouterUnsubscribe? || e.RemoveClosed?)
  {
    match e
    case RouterSubscribe(r) => Subscribe(s.readers[r].task.subject, r)
    case RouterUnsubscribe(r) => Unsubscribe(s.readers[r].task.subject, r)
    case RemoveClosed(q) => RemoveSession(q)
  }

  lemma StepAgrees(s: State, e: Event, q: nat)
    requires Inv(s) && Enabled(s, e) && q < |s.queues| && !s.queues[q].closed
    ensures Agrees(Do(s, e).pairs, Do(s, e).readers[q], q)
  {
    assert Agrees(s.pairs, s.readers[q], q);
    match e
    case Begin(r, order) =>
      if r == q {
        HandleAgrees(s.pairs, s.readers[q], q, Inputs(s, r)[s.readers[r].begun], order);
      }
    case RouterSubscribe(r) => HeldByStep(s.pairs, OpOf(s, e), q);
    case RouterUnsubscribe(r) => HeldByStep(s.pairs, OpOf(s, e), q);
    case RemoveClosed(x) => HeldByStep(s.pairs, OpOf(s, e), q);
    case _ =>
  }

  /** `closed` never falls. */
  lemma ClosedStays(s: State, e: Event, q: nat)
    requires Shape(s) && Enabled(s, e) && q < |s.queues| && s.queues[q].closed
    ensures Do(s, e).queues[q].closed
  {
  }

  lemma StepInv(s: State, e: Event)
    requires Inv(s) && Enabled(s, e)
    ensures Inv(Do(s, e))
  {
    var s' := Do(s, e);
    DoKeepsShape(s, e);
    forall q | 0 <= q < |s.queues|
      ensures !s'.queues[q].closed ==> Agrees(s'.pairs, s'.readers[q], q)
      ensures q in s'.removed ==> s'.queues[q].closed
    {
      if s.queues[q].closed {
        ClosedStays(s, e, q);
      } else {
        StepAgrees(s, e, q);
      }
    }
  }

  lemma {:induction false} RunInv(s: State, es: seq<Event>)
    requires Inv(s) && IsRun(s, es)
    ensures Inv(Exec(s, es))
    decreases |es|
  {
    if es == [] {
    } else {
      StepInv(s, es[0]);
      RunInv(Do(s, es[0]), es[1..]);
    }
  }

  /** In every run, for every session that is not closed and is between two of its messages, the
      session's duplicate-free list is exactly the set of subjects under which the router holds it. */
  lemma SessionRouterAgreement(incoming: seq<Str>, limit: int, capacity: nat, es: seq<Event>, q: nat)
    requires q < |incoming| && IsRun(Start(incoming, limit, capacity), es)
    ensures var s := Exec(Start(incoming, limit, capacity), es);
            !s.queues[q].closed && s.readers[q].task.Idle? ==>
              && NoDup(s.readers[q].subjects)
              && forall p :: p in s.readers[q].subjects <==> (p, q) in s.pairs
  {
    var s0 := Start(incoming, limit, capacity);
    assert Inv(s0);
    RunInv(s0, es);
    var s := Exec(s0, es);
    if !s.queues[q].closed && s.readers[q].task.Idle? {
      assert Agrees(s.pairs, s.readers[q], q);
      assert forall p :: p in s.readers[q].subjects <==> p in HeldBy(s.pairs, q);
    }
  }

  /** A session the router has dropped comes back only by a SUB its reader was inside. */
  lemma {:induction false} StaysRemoved(s: State, es: seq<Event>, q: nat)
    requires Shape(s) && IsRun(s, es) && q < |s.readers| && HeldBy(s.pairs, q) == {}
    requires RouterSubscribe(q) !in es
    ensures HeldBy(Exec(s, es).pairs, q) == {}
    decreases |es|
  {
    if es == [] {
    } else {
      var e := es[0];
      DoKeepsShape(s, e);
      if e.RouterSubscribe? || e.RouterUnsubscribe? || e.RemoveClosed? {
        HeldByStep(s.pairs, OpOf(s, e), q);
      }
      StaysRemoved(Do(s, e), es[1..], q);
    }
  }

  /** After Close has called RemoveSession the router holds no pair of the session, until its reader next calls
      the router for a SUB. */
  lemma RemovedFromRouter(s: State, q: nat, es: seq<Event>)
    requires Shape(s) && IsRun(s, [RemoveClosed(q)] + es) && RouterSubscribe(q) !in es
    ensures forall p :: (p, q) !in Exec(s, [RemoveClosed(q)] + es).pairs
  {
    var e := RemoveClosed(q);
    assert ([e] + es)[1..] == es;
    assert Enabled(s, e);
    DoKeepsShape(s, e);
    HeldByStep(s.pairs, OpOf(s, e), q);
    StaysRemoved(Do(s, e), es, q);
    forall p
      ensures (p, q) !in Exec(s, [e] + es).pairs
    {
      assert p !in HeldBy(Exec(s, [e] + es).pairs, q);
    }
  }
}
