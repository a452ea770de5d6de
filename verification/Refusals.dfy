/** Why a send is refused: over whole runs of the server, only for a closed session, too many bytes
    outstanding or a full channel; and a PING is answered with a PONG unless that was refused. */
module Refusals {
  import opened Broker
  import opened Bytes
  import opened Codec
  import opened Delivery
  import opened Replies
  import Completeness
  import SQ = SendQueue

  // ---------------------------------------------------------------- no frame is too large

  lemma TooLargeStep(q: SQ.Queue, e: SQ.Event, p: nat)
    requires SQ.Enabled(q, e) && p < |q.producers| && q.producers[p] != SQ.Returned(SQ.Failed(SQ.TooLarge))
    requires e.Call? ==> InLimits(e.packet.msg)
    ensures p < |SQ.Do(q, e).producers| && SQ.Do(q, e).producers[p] != SQ.Returned(SQ.Failed(SQ.TooLarge))
  {
  }

  ghost predicate NoneTooLarge(s: State)
  {
    forall q, p :: 0 <= q < |s.queues| && 0 <= p < |s.queues[q].producers| ==>
      s.queues[q].producers[p] != SQ.Returned(SQ.Failed(SQ.TooLarge))
  }

  /** What a reader is sending is within the limits of the format. */
  lemma CurrentInLimits(s: State, r: nat)
    requires Inv(s) && r < |s.readers| && s.readers[r].task.Sending?
    ensures InLimits(s.readers[r].task.msg)
  {
    assert TaskOk(s, r);
    InputsInLimits(s, r, s.readers[r].begun - 1);
    CarriesInLimits(Current(s, r), s.readers[r].task.msg);
  }

  lemma StepNoneTooLarge(s: State, e: Event)
    requires Inv(s) && NoneTooLarge(s) && Enabled(s, e)
    ensures NoneTooLarge(Do(s, e))
  {
    DoKeepsShape(s, e);
    forall q, p | 0 <= q < |s.queues| && 0 <= p < |s.queues[q].producers|
      ensures Do(s, e).queues[q].producers[p] != SQ.Returned(SQ.Failed(SQ.TooLarge))
    {
      if e.StartSend? {
        CurrentInLimits(s, e.r);
        var packet := SQ.Packet(e.r, s.readers[e.r].begun - 1, s.readers[e.r].task.msg);
        TooLargeStep(s.queues[s.readers[e.r].task.targets[0]], SQ.Call(e.r, packet), p);
      } else if e.QueueStep? {
        TooLargeStep(s.queues[e.q], e.e, p);
      }
    }
  }

  lemma {:induction false} RunNoneTooLarge(s: State, es: seq<Event>)
    requires Inv(s) && NoneTooLarge(s) && IsRun(s, es)
    ensures NoneTooLarge(Exec(s, es))
    decreases |es|
  {
    if es == [] {
    } else {
      StepNoneTooLarge(s, es[0]);
      Delivery.StepInv(s, es[0]);
      RunNoneTooLarge(Do(s, es[0]), es[1..]);
    }
  }

  /** In no run of the server does a send fail because its frame is too large. */
  lemma NeverTooLarge(incoming: seq<Str>, limit: int, capacity: nat, es: seq<Event>)
    requires IsRun(Start(incoming, limit, capacity), es)
    ensures NoneTooLarge(Exec(Start(incoming, limit, capacity), es))
  {
    StartInv(incoming, limit, capacity);
    RunNoneTooLarge(Start(incoming, limit, capacity), es);
  }

  // ---------------------------------------------------------------- with room nothing is refused

  /** The session is open, its channel has a free place, and the byte limit, if any, has room for a frame. */
  predicate HasRoom(q: SQ.Queue)
  {
    !q.closed && |q.outChan| < q.capacity && (q.limit > 0 ==> SQ.Outstanding(q) + 8388612 <= q.limit)
  }

  predicate RoomAllAlong(s: State, es: seq<Event>, x: nat)
    requires Shape(s) && IsRun(s, es) && x < |s.queues|
    decreases |es|
  {
    && HasRoom(s.queues[x])
    && (es == [] || (DoKeepsShape(s, es[0]); RoomAllAlong(Do(s, es[0]), es[1..], x)))
  }

  predicate Failing(p: SQ.Producer) { p.Refunding? || (p.Returned? && p.outcome.Failed?) }

  /** Queue x is not turning reader r away, and has not done so since r's message `since`. */
  ghost predicate Unfailed(s: State, x: nat, r: nat, since: nat)
    requires Shape(s) && x < |s.queues| && r < |s.readers|
  {
    !Failing(s.queues[x].producers[r]) && forall k :: (x, r, k) in s.refused ==> k < since
  }

  lemma RoomStep(q: SQ.Queue, e: SQ.Event, p: nat)
    requires SQ.Inv(q) && SQ.SoundLimit(q.limit) && HasRoom(q) && SQ.Enabled(q, e)
    requires p < |q.producers| && !Failing(q.producers[p])
    requires e.Call? ==> InLimits(e.packet.msg)
    ensures p < |SQ.Do(q, e).producers| && !Failing(SQ.Do(q, e).producers[p])
  {
    assert SQ.ProducerFits(q.limit, q.producers[p]);
    if !q.producers[p].Returned? {
      SQ.OutcomeCauses(q, e, p);
    }
  }

  lemma StepUnfailed(s: State, limit: int, e: Event, x: nat, r: nat, since: nat)
    requires Inv(s) && QueuesInv(s, limit) && SQ.SoundLimit(limit) && Enabled(s, e)
    requires x < |s.queues| && r < |s.readers| && HasRoom(s.queues[x]) && Unfailed(s, x, r, since)
    ensures Shape(Do(s, e)) && Unfailed(Do(s, e), x, r, since)
  {
    DoKeepsShape(s, e);
    if e.StartSend? && s.readers[e.r].task.targets[0] == x {
      CurrentInLimits(s, e.r);
      RoomStep(s.queues[x], SQ.Call(e.r, SQ.Packet(e.r, s.readers[e.r].begun - 1, s.readers[e.r].task.msg)), r);
    } else if e.QueueStep? && e.q == x {
      RoomStep(s.queues[x], e.e, r);
    } else if e.FinishSend? && s.readers[e.r].task.targets[0] == x {
      RoomStep(s.queues[x], SQ.Return(e.r), r);
    }
  }

  lemma {:induction false} RunUnfailed(s: State, limit: int, es: seq<Event>, x: nat, r: nat, since: nat)
    requires Inv(s) && QueuesInv(s, limit) && SQ.SoundLimit(limit) && IsRun(s, es)
    requires x < |s.queues| && r < |s.readers| && RoomAllAlong(s, es, x) && Unfailed(s, x, r, since)
    ensures Unfailed(Exec(s, es), x, r, since)
    decreases |es|
  {
    if es == [] {
    } else {
      StepUnfailed(s, limit, es[0], x, r, since);
      Delivery.StepInv(s, es[0]);
      StepQueues(s, limit, es[0]);
      RunUnfailed(Do(s, es[0]), limit, es[1..], x, r, since);
    }
  }

  /** From any state of any run: while a session stays open with a free place in its channel and room for a
      frame under its byte limit, no message begun from then on is refused by it. */
  lemma RoomMeansNoRefusal(incoming: seq<Str>, limit: int, capacity: nat, es1: seq<Event>, s1: State,
                           es2: seq<Event>, s2: State, x: nat, r: nat, k: nat)
    requires IsRun(Start(incoming, limit, capacity), es1) && s1 == Exec(Start(incoming, limit, capacity), es1)
    requires IsRun(s1, es2) && s2 == Exec(s1, es2) && SQ.SoundLimit(limit)
    requires x < |incoming| && r < |incoming| && RoomAllAlong(s1, es2, x)
    requires s1.readers[r].task.Idle? && s1.readers[r].begun <= k
    ensures (x, r, k) !in s2.refused
  {
    var s0 := Start(incoming, limit, capacity);
    StartInv(incoming, limit, capacity);
    StartQueues(incoming, limit, capacity);
    Completeness.StartNoneLost(incoming, limit, capacity);
    RunInv(s0, limit, es1);
    Completeness.RunNoneLost(s0, es1);
    assert CallOk(s1, x, r);
    forall i | (x, r, i) in s1.refused
      ensures i < k
    {
      assert Completeness.RefusedForGood(s1, x, r, i);
    }
    RunUnfailed(s1, limit, es2, x, r, k);
  }

  // ---------------------------------------------------------------- a PING is answered with a PONG

  /** What a reader sends about a PING is a PONG, or else its PONG has been refused. */
  ghost predicate PongFirst(s: State, r: nat)
    requires Shape(s) && r < |s.readers|
  {
    var Reader(_, begun, task) := s.readers[r];
    task.Sending? && 0 < begun <= |Inputs(s, r)| && Current(s, r).command == CMD_PING && task.msg != PONG ==>
      (r, r, begun - 1) in s.refused
  }

  ghost predicate PongAccepted(s: State, q: nat, p: SQ.Packet)
    requires Shape(s)
  {
    && p.sender < |s.readers| && p.serial < |Inputs(s, p.sender)|
    && (Inputs(s, p.sender)[p.serial].command == CMD_PING && p.msg != PONG ==> (q, p.sender, p.serial) in s.refused)
  }

  ghost predicate Ponged(s: State)
    requires Shape(s)
  {
    && (forall r :: 0 <= r < |s.readers| ==> PongFirst(s, r))
    && (forall q, p :: 0 <= q < |s.queues| && p in s.queues[q].accepted ==> PongAccepted(s, q, p))
  }

  /** A PONG that was refused is on record; any other outcome leaves the message being sent as it is. */
  lemma FinishPongFirst(s: State, r: nat)
    requires Inv(s) && r < |s.readers| && PongFirst(s, r) && Enabled(s, FinishSend(r))
    ensures Shape(Do(s, FinishSend(r))) && PongFirst(Do(s, FinishSend(r)), r)
  {
    DoKeepsShape(s, FinishSend(r));
    assert TaskOk(s, r);
    var task, m := s.readers[r].task, Current(s, r);
    if m.command == CMD_PING {
      assert task.targets[0] in task.targets;
    }
  }

  lemma StepPongFirst(s: State, e: Event, r: nat)
    requires Inv(s) && r < |s.readers| && PongFirst(s, r) && Enabled(s, e)
    ensures Shape(Do(s, e)) && PongFirst(Do(s, e), r)
  {
    DoKeepsShape(s, e);
    assert TaskOk(s, r);
    if e == FinishSend(r) {
      FinishPongFirst(s, r);
    } else if Do(s, e).readers[r] == s.readers[r] {
      assert s.refused <= Do(s, e).refused;
    }
  }

  lemma StepPongAccepted(s: State, e: Event, q: nat, p: SQ.Packet)
    requires Inv(s) && Ponged(s) && Enabled(s, e) && q < |s.queues| && p in Do(s, e).queues[q].accepted
    ensures Shape(Do(s, e)) && PongAccepted(Do(s, e), q, p)
  {
    DoKeepsShape(s, e);
    if p in s.queues[q].accepted {
      assert PongAccepted(s, q, p);
    } else {
      assert e.QueueStep? && e.q == q;
      InternalStep(s.queues[q], e.e);
      assert e.e.Send? && |s.queues[q].outChan| < s.queues[q].capacity;
      AcceptedPacket(s, Do(s, e), q, e.e.p);
      assert CallOk(s, q, e.e.p) && TaskOk(s, e.e.p) && PongFirst(s, e.e.p);
      assert p == s.queues[q].producers[e.e.p].packet;
    }
  }

  lemma StepPonged(s: State, e: Event)
    requires Inv(s) && Ponged(s) && Enabled(s, e)
    ensures Shape(Do(s, e)) && Ponged(Do(s, e))
  {
    var s' := Do(s, e);
    DoKeepsShape(s, e);
    forall r | 0 <= r < |s'.readers|
      ensures PongFirst(s', r)
    {
      StepPongFirst(s, e, r);
    }
    forall q, p | 0 <= q < |s'.queues| && p in s'.queues[q].accepted
      ensures PongAccepted(s', q, p)
    {
      StepPongAccepted(s, e, q, p);
    }
  }

  lemma {:induction false} RunPonged(s: State, es: seq<Event>)
    requires Inv(s) && Ponged(s) && IsRun(s, es)
    ensures Ponged(Exec(s, es))
    decreases |es|
  {
    if es == [] {
    } else {
      StepPonged(s, es[0]);
      Delivery.StepInv(s, es[0]);
      RunPonged(Do(s, es[0]), es[1..]);
    }
  }

  /** In every run, a frame accepted about a PING is the PONG, unless the session is on record as having refused
      a frame about it. */
  lemma PongUnlessRefused(incoming: seq<Str>, limit: int, capacity: nat, es: seq<Event>, q: nat, p: SQ.Packet)
    requires q < |incoming| && IsRun(Start(incoming, limit, capacity), es)
    ensures var s := Exec(Start(incoming, limit, capacity), es);
            p in s.queues[q].accepted ==> PongAccepted(s, q, p)
  {
    StartInv(incoming, limit, capacity);
    RunPonged(Start(incoming, limit, capacity), es);
  }
}
