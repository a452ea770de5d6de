/** Handling a message never blocks: the run model has no dead ends, and no session can hold up another. */
module Progress {
  import opened Broker
  import opened Bytes
  import opened Delivery
  import opened Replies
  import opened Tables
  import SQ = SendQueue

  lemma {:induction false} Listing(xs: set<SessionId>) returns (order: seq<SessionId>)
    ensures NoDup(order) && forall x :: x in order <==> x in xs
  {
    if xs == {} {
      order := [];
    } else {
      var x :| x in xs;
      var rest := Listing(xs - {x});
      NoDupAppend(rest, x);
      order := rest + [x];
    }
  }

  /** An idle reader with a message waiting can take it. */
  lemma CanBegin(s: State, r: nat) returns (order: seq<SessionId>)
    requires Shape(s) && r < |s.readers| && s.readers[r].task.Idle? && s.readers[r].begun < |Inputs(s, r)|
    ensures Enabled(s, Begin(r, order))
  {
    order := Listing(Subscribers(s.pairs, Inputs(s, r)[s.readers[r].begun].subject));
  }

  /** The next step of a busy reader: its own, or that of its producer inside enqueueEncoded. */
  function NextOf(s: State, r: nat): (e: Event)
    requires Inv(s) && r < |s.readers| && !s.readers[r].task.Idle?
  {
    match s.readers[r].task
    case Appended(_) => RouterSubscribe(r)
    case Filtered(_) => RouterUnsubscribe(r)
    case Sending(targets, _) =>
      assert TaskOk(s, r);
      if targets == [] then Finish(r)
      else
        assert targets[0] in targets;
        var p := s.queues[targets[0]].producers[r];
        if p.Idle? then StartSend(r)
        else if p.Returned? then FinishSend(r)
        else QueueStep(targets[0], SQ.NextOf(s.queues[targets[0]], r))
  }

  lemma NextIsEnabled(s: State, r: nat)
    requires Inv(s) && r < |s.readers| && !s.readers[r].task.Idle?
    ensures Enabled(s, NextOf(s, r))
  {
    assert TaskOk(s, r);
    if s.readers[r].task.Sending? && s.readers[r].task.targets != [] {
      assert s.readers[r].task.targets[0] in s.readers[r].task.targets;
    }
  }

  /** What is left to do, in order of weight: the router call, a PONG that may turn into an ERR, ... */
  function Stage(t: Task): (n: nat)
  {
    if t.Appended? || t.Filtered? then 3 else if t.Sending? then if t.msg == PONG then 2 else 1 else 0
  }

  /** ... the sessions still to come ... */
  function Left(t: Task): (n: nat) { if t.Sending? then |t.targets| else 0 }

  /** ... and the steps of the send that is under way. */
  function SendSteps(s: State, r: nat): (n: nat)
    requires Inv(s) && r < |s.readers|
  {
    var t := s.readers[r].task;
    if t.Sending? && t.targets != [] then
      assert TaskOk(s, r);
      assert t.targets[0] in t.targets;
      var q := s.queues[t.targets[0]];
      if q.producers[r].Idle? then 6 else SQ.StepsLeft(q, r)
    else 0
  }

  /** Steps of reader r alone. */
  predicate ByReader(es: seq<Event>, r: nat)
  {
    forall i :: 0 <= i < |es| ==>
      match es[i]
      case RouterSubscribe(o) => o == r
      case RouterUnsubscribe(o) => o == r
      case StartSend(o) => o == r
      case FinishSend(o) => o == r
      case Finish(o) => o == r
      case QueueStep(_, e) => SQ.ByProducer(e) && e.p == r
      case _ => false
  }

  ghost predicate LessLeft(s: State, s': State, r: nat)
    requires Inv(s) && Inv(s') && r < |s.readers| && r < |s'.readers|
  {
    var t, t' := s.readers[r].task, s'.readers[r].task;
    || Stage(t') < Stage(t)
    || (Stage(t') == Stage(t) && Left(t') < Left(t))
    || (Stage(t') == Stage(t) && Left(t') == Left(t) && SendSteps(s', r) < SendSteps(s, r))
  }

  /** The reader is inside the send to the first of its targets. */
  predicate InSend(s: State, r: nat, q: nat)
    requires Shape(s)
  {
    && r < |s.readers| && q < |s.queues|
    && s.readers[r].task.Sending? && s.readers[r].task.targets != [] && s.readers[r].task.targets[0] == q
  }

  lemma StartIsProgress(s: State, r: nat, q: nat)
    requires Inv(s) && InSend(s, r, q) && Enabled(s, StartSend(r)) && Inv(Do(s, StartSend(r)))
    ensures LessLeft(s, Do(s, StartSend(r)), r)
  {
    var s' := Do(s, StartSend(r));
    assert s'.readers == s.readers;
    assert !s'.queues[q].producers[r].Idle? && SQ.StepsLeft(s'.queues[q], r) <= 4;
  }

  lemma CallIsProgress(s: State, limit: int, r: nat, q: nat)
    requires Inv(s) && QueuesInv(s, limit) && SQ.SoundLimit(limit) && InSend(s, r, q)
    requires !s.queues[q].producers[r].Idle? && !s.queues[q].producers[r].Returned?
    requires var e := QueueStep(q, SQ.NextOf(s.queues[q], r)); Enabled(s, e) && Inv(Do(s, e))
    ensures LessLeft(s, Do(s, QueueStep(q, SQ.NextOf(s.queues[q], r))), r)
  {
    var s' := Do(s, QueueStep(q, SQ.NextOf(s.queues[q], r)));
    assert s'.readers == s.readers;
    SQ.NextKeepsVerdict(s.queues[q], r);
  }

  lemma ReturnIsProgress(s: State, r: nat, q: nat)
    requires Inv(s) && InSend(s, r, q) && Enabled(s, FinishSend(r)) && Inv(Do(s, FinishSend(r)))
    ensures LessLeft(s, Do(s, FinishSend(r)), r)
  {
  }

  lemma NextIsProgress(s: State, limit: int, r: nat)
    requires Inv(s) && QueuesInv(s, limit) && SQ.SoundLimit(limit) && r < |s.readers| && !s.readers[r].task.Idle?
    requires Enabled(s, NextOf(s, r)) && Inv(Do(s, NextOf(s, r)))
    ensures LessLeft(s, Do(s, NextOf(s, r)), r)
  {
    var task := s.readers[r].task;
    assert TaskOk(s, r);
    if task.Sending? && task.targets != [] {
      var q := task.targets[0];
      assert q in task.targets;
      if s.queues[q].producers[r].Idle? {
        StartIsProgress(s, r, q);
      } else if s.queues[q].producers[r].Returned? {
        ReturnIsProgress(s, r, q);
      } else {
        CallIsProgress(s, limit, r, q);
      }
    }
  }

  lemma NextIsOwn(s: State, r: nat)
    requires Inv(s) && r < |s.readers| && !s.readers[r].task.Idle? && Enabled(s, NextOf(s, r))
    ensures ByReader([NextOf(s, r)], r)
    ensures Shape(Do(s, NextOf(s, r))) && Do(s, NextOf(s, r)).readers[r].begun == s.readers[r].begun
  {
    DoKeepsShape(s, NextOf(s, r));
  }

  /** From every state of a run a busy reader can finish its message by its own steps, whatever the other
      sessions, their writers and their peers do or leave undone. */
  lemma {:induction false} HandlingEnds(s: State, limit: int, r: nat) returns (es: seq<Event>)
    requires Inv(s) && QueuesInv(s, limit) && SQ.SoundLimit(limit) && r < |s.readers|
    ensures IsRun(s, es) && ByReader(es, r)
    ensures Exec(s, es).readers[r].task.Idle? && Exec(s, es).readers[r].begun == s.readers[r].begun
    decreases Stage(s.readers[r].task), Left(s.readers[r].task), SendSteps(s, r)
  {
    if s.readers[r].task.Idle? {
      es := [];
    } else {
      var e := NextOf(s, r);
      NextIsEnabled(s, r);
      NextIsOwn(s, r);
      Delivery.StepInv(s, e);
      StepQueues(s, limit, e);
      NextIsProgress(s, limit, r);
      var s' := Do(s, e);
      var rest := HandlingEnds(s', limit, r);
      es := [e] + rest;
      RunJoin(s, [e], rest);
    }
  }

  lemma {:induction false} CanHandleAll(s: State, limit: int, r: nat) returns (es: seq<Event>)
    requires Inv(s) && QueuesInv(s, limit) && SQ.SoundLimit(limit) && r < |s.readers|
    ensures IsRun(s, es)
    ensures Exec(s, es).readers[r].task.Idle? && Exec(s, es).readers[r].begun == |Inputs(s, r)|
    decreases |Inputs(s, r)| - s.readers[r].begun
  {
    var es1 := HandlingEnds(s, limit, r);
    RunInv(s, limit, es1);
    var s1 := Exec(s, es1);
    assert TaskOk(s1, r);
    if s1.readers[r].begun == |Inputs(s, r)| {
      es := es1;
    } else {
      var order := CanBegin(s1, r);
      var e := Begin(r, order);
      Delivery.StepInv(s1, e);
      StepQueues(s1, limit, e);
      assert Do(s1, e).readers[r].begun == s1.readers[r].begun + 1;
      var rest := CanHandleAll(Do(s1, e), limit, r);
      RunJoin(s1, [e], rest);
      RunJoin(s, es1, [e] + rest);
      es := es1 + ([e] + rest);
    }
  }

  /** Every run can be continued so that a given reader handles everything its client has sent. */
  lemma NoDeadEnd(incoming: seq<Str>, limit: int, capacity: nat, es: seq<Event>, r: nat) returns (more: seq<Event>)
    requires r < |incoming| && SQ.SoundLimit(limit) && IsRun(Start(incoming, limit, capacity), es)
    ensures IsRun(Start(incoming, limit, capacity), es + more)
    ensures var s := Exec(Start(incoming, limit, capacity), es + more);
            s.readers[r].task.Idle? && s.readers[r].begun == |Inputs(s, r)|
  {
    var s0 := Start(incoming, limit, capacity);
    StartInv(incoming, limit, capacity);
    StartQueues(incoming, limit, capacity);
    RunInv(s0, limit, es);
    more := CanHandleAll(Exec(s0, es), limit, r);
    RunJoin(s0, es, more);
  }
}
