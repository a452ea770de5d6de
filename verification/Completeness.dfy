/** No silent losses: every session a handled message is due to has accepted a frame about it or has
    refused it with an error. */
module Completeness {
  import opened Broker
  import opened Bytes
  import opened Codec
  import opened Delivery
  import opened Tables
  import SQ = SendQueue

  /** The sessions that message k of reader r is due to: the subscribers found for a publish, the
      sender itself for anything else. */
  ghost function Due(s: State, r: nat, k: nat): (xs: set<SessionId>)
    requires r < |s.incoming| && k < |Inputs(s, r)|
  {
    var m := Inputs(s, r)[k];
    if m.command != CMD_PUB then {r}
    else if (r, k) in s.lookups then Subscribers(s.lookups[(r, k)], m.subject)
    else {}
  }

  ghost predicate AcceptedAt(s: State, x: SessionId, r: nat, k: nat)
  {
    x < |s.queues| && exists p :: p in s.queues[x].accepted && p.sender == r && p.serial == k
  }

  /** Reader r is handling its message k and has session x still to come. */
  predicate Underway(s: State, x: SessionId, r: nat, k: nat)
    requires r < |s.readers|
  {
    && s.readers[r].begun == k + 1
    && (s.readers[r].task.Appended? || s.readers[r].task.Filtered? ||
        (s.readers[r].task.Sending? && x in s.readers[r].task.targets))
  }

  ghost predicate Settled(s: State, x: SessionId, r: nat, k: nat)
    requires r < |s.readers|
  {
    AcceptedAt(s, x, r, k) || (x, r, k) in s.refused || Underway(s, x, r, k)
  }

  /** A send that reported success is in the accepted history. */
  ghost predicate Acked(s: State, q: nat, r: nat)
    requires Shape(s) && q < |s.queues| && r < |s.readers|
  {
    s.queues[q].producers[r] == SQ.Returned(SQ.Accepted) ==>
      s.readers[r].begun > 0 && AcceptedAt(s, q, r, s.readers[r].begun - 1)
  }

  ghost predicate AllSettled(s: State, r: nat)
    requires Shape(s) && r < |s.readers|
  {
    forall k, x :: 0 <= k < s.readers[r].begun && k < |Inputs(s, r)| && x in Due(s, r, k) ==> Settled(s, x, r, k)
  }

  /** Every publish that was begun has its lookup on record. */
  ghost predicate Recorded(s: State, r: nat)
    requires Shape(s) && r < |s.readers|
  {
    forall k :: 0 <= k < s.readers[r].begun && k < |Inputs(s, r)| && Inputs(s, r)[k].command == CMD_PUB ==>
      (r, k) in s.lookups
  }

  /** A refusal is of a message that was begun; unless that is a PING, whose failed PONG is followed by an
      ERR, the session has accepted nothing about it and nothing more is on its way. */
  ghost predicate RefusedForGood(s: State, x: SessionId, r: nat, k: nat)
    requires Shape(s)
  {
    && r < |s.readers| && k < s.readers[r].begun && k < |Inputs(s, r)|
    && (Inputs(s, r)[k].command != CMD_PING ==> !AcceptedAt(s, x, r, k) && !Underway(s, x, r, k))
  }

  ghost predicate NoneLost(s: State)
    requires Shape(s)
  {
    && (forall x, r, k :: (x, r, k) in s.refused ==> RefusedForGood(s, x, r, k))
    && (forall r :: 0 <= r < |s.readers| ==> Recorded(s, r))
    && (forall q, r :: 0 <= q < |s.queues| && 0 <= r < |s.readers| ==> Acked(s, q, r))
    && (forall r :: 0 <= r < |s.readers| ==> AllSettled(s, r))
  }

  /** Histories only grow. */
  ghost predicate Grows(s: State, s': State)
  {
    && Shape(s) && Shape(s') && s'.incoming == s.incoming
    && s.refused <= s'.refused
    && (forall q :: 0 <= q < |s.queues| ==> s.queues[q].accepted <= s'.queues[q].accepted)
  }

  lemma AcceptedGrows(s: State, s': State, x: SessionId, r: nat, k: nat)
    requires Grows(s, s') && AcceptedAt(s, x, r, k)
    ensures AcceptedAt(s', x, r, k)
  {
  }

  lemma StepGrows(s: State, e: Event)
    requires Shape(s) && Enabled(s, e)
    ensures Grows(s, Do(s, e))
  {
    DoKeepsShape(s, e);
  }

  /** A reader the step does not touch stays settled. */
  lemma SettledElsewhere(s: State, s': State, r: nat)
    requires Grows(s, s') && r < |s.readers| && s'.readers[r] == s.readers[r] && AllSettled(s, r)
    requires forall k :: (r, k) in s'.lookups <==> (r, k) in s.lookups
    requires forall k :: (r, k) in s.lookups ==> s'.lookups[(r, k)] == s.lookups[(r, k)]
    ensures AllSettled(s', r)
  {
    forall k, x | 0 <= k < s'.readers[r].begun && k < |Inputs(s', r)| && x in Due(s', r, k)
      ensures Settled(s', x, r, k)
    {
      assert x in Due(s, r, k);
      assert Settled(s, x, r, k);
      if AcceptedAt(s, x, r, k) {
        AcceptedGrows(s, s', x, r, k);
      }
    }
  }

  /** The reader that moves: whatever it drops from its targets must have been accepted or refused. */
  lemma SettledHere(s: State, s': State, r: nat, now: nat)
    requires Grows(s, s') && r < |s.readers| && AllSettled(s, r)
    requires s'.readers[r].begun == s.readers[r].begun == now + 1 <= |Inputs(s, r)| && s'.lookups == s.lookups
    requires forall x :: Underway(s, x, r, now) && x in Due(s, r, now) ==> Settled(s', x, r, now)
    ensures AllSettled(s', r)
  {
    forall k, x | 0 <= k < s'.readers[r].begun && k < |Inputs(s', r)| && x in Due(s', r, k)
      ensures Settled(s', x, r, k)
    {
      assert x in Due(s, r, k);
      assert Settled(s, x, r, k);
      if AcceptedAt(s, x, r, k) {
        AcceptedGrows(s, s', x, r, k);
      }
    }
  }

  lemma BeginSettled(s: State, r: nat, order: seq<SessionId>)
    requires Inv(s) && NoneLost(s) && Enabled(s, Begin(r, order))
    ensures AllSettled(Do(s, Begin(r, order)), r)
  {
    var s' := Do(s, Begin(r, order));
    StepGrows(s, Begin(r, order));
    forall k, x | 0 <= k < s'.readers[r].begun && k < |Inputs(s', r)| && x in Due(s', r, k)
      ensures Settled(s', x, r, k)
    {
      if k < s.readers[r].begun {
        assert x in Due(s, r, k);
        assert AllSettled(s, r);
        assert Settled(s, x, r, k);
        if AcceptedAt(s, x, r, k) {
          AcceptedGrows(s, s', x, r, k);
        }
      } else {
        assert Underway(s', x, r, k);
      }
    }
  }

  /** A PONG has one target. */
  lemma OnlyPongRetries(s: State, r: nat)
    requires Inv(s) && r < |s.readers| && s.readers[r].task.Sending?
    ensures s.readers[r].task.msg == Replies.PONG ==> forall x :: x in s.readers[r].task.targets ==> x == r
  {
    assert TaskOk(s, r);
    InputsInLimits(s, r, s.readers[r].begun - 1);
    CarriesInLimits(Current(s, r), s.readers[r].task.msg);
  }

  lemma FinishSendSettled(s: State, r: nat)
    requires Inv(s) && NoneLost(s) && Enabled(s, FinishSend(r))
    ensures AllSettled(Do(s, FinishSend(r)), r)
  {
    var s', q := Do(s, FinishSend(r)), s.readers[r].task.targets[0];
    StepGrows(s, FinishSend(r));
    assert Acked(s, q, r) && TaskOk(s, r) && AllSettled(s, r);
    var k := s.readers[r].begun - 1;
    forall x | Underway(s, x, r, k) && x in Due(s, r, k)
      ensures Settled(s', x, r, k)
    {
      if x == q && s.queues[q].producers[r] == SQ.Returned(SQ.Accepted) {
        AcceptedGrows(s, s', x, r, k);
      } else if x != q {
        assert x in s.readers[r].task.targets[1..];
        OnlyPongRetries(s, r);
      }
    }
    SettledHere(s, s', r, k);
  }

  lemma RouterSettled(s: State, r: nat, e: Event)
    requires Inv(s) && NoneLost(s) && Enabled(s, e) && (e == RouterSubscribe(r) || e == RouterUnsubscribe(r))
    ensures AllSettled(Do(s, e), r)
  {
    StepGrows(s, e);
    assert TaskOk(s, r) && AllSettled(s, r);
    SettledHere(s, Do(s, e), r, s.readers[r].begun - 1);
  }

  lemma FinishSettled(s: State, r: nat)
    requires Inv(s) && NoneLost(s) && Enabled(s, Finish(r))
    ensures AllSettled(Do(s, Finish(r)), r)
  {
    StepGrows(s, Finish(r));
    assert TaskOk(s, r) && AllSettled(s, r);
    SettledHere(s, Do(s, Finish(r)), r, s.readers[r].begun - 1);
  }

  lemma StepSettled(s: State, e: Event, r: nat)
    requires Inv(s) && NoneLost(s) && Enabled(s, e) && r < |s.readers|
    ensures Shape(Do(s, e)) && AllSettled(Do(s, e), r)
  {
    StepGrows(s, e);
    assert AllSettled(s, r);
    if e == RouterSubscribe(r) || e == RouterUnsubscribe(r) {
      RouterSettled(s, r, e);
    } else if e.Begin? && e.r == r {
      BeginSettled(s, r, e.order);
    } else if e == FinishSend(r) {
      FinishSendSettled(s, r);
    } else if e == Finish(r) {
      FinishSettled(s, r);
    } else {
      SettledElsewhere(s, Do(s, e), r);
    }
  }

  lemma NewlyAccepted(s: State, e: Event, q: nat, r: nat)
    requires Inv(s) && Enabled(s, e) && q < |s.queues| && r < |s.readers|
    requires s.queues[q].producers[r] != SQ.Returned(SQ.Accepted)
    requires Do(s, e).queues[q].producers[r] == SQ.Returned(SQ.Accepted)
    ensures Do(s, e).readers[r] == s.readers[r] && s.readers[r].begun > 0
    ensures AcceptedAt(Do(s, e), q, r, s.readers[r].begun - 1)
  {
    assert CallOk(s, q, r);
    assert e == QueueStep(q, SQ.Send(r));
    var p := s.queues[q].producers[r].packet;
    assert p in Do(s, e).queues[q].accepted;
  }

  lemma StepAcked(s: State, e: Event, q: nat, r: nat)
    requires Inv(s) && NoneLost(s) && Enabled(s, e) && q < |s.queues| && r < |s.readers|
    ensures Shape(Do(s, e)) && Acked(Do(s, e), q, r)
  {
    var s' := Do(s, e);
    StepGrows(s, e);
    assert Acked(s, q, r) && CallOk(s, q, r);
    if s'.queues[q].producers[r] == SQ.Returned(SQ.Accepted) {
      if s.queues[q].producers[r] == SQ.Returned(SQ.Accepted) {
        AcceptedGrows(s, s', q, r, s.readers[r].begun - 1);
      } else {
        NewlyAccepted(s, e, q, r);
      }
    }
  }

  lemma StepRecorded(s: State, e: Event, r: nat)
    requires Shape(s) && Enabled(s, e) && r < |s.readers| && Recorded(s, r)
    ensures Shape(Do(s, e)) && Recorded(Do(s, e), r)
  {
    DoKeepsShape(s, e);
  }

  /** What a step newly accepts was underway before it. */
  lemma AcceptedWasUnderway(s: State, e: Event, x: SessionId, r: nat, k: nat)
    requires Inv(s) && Enabled(s, e) && r < |s.readers|
    requires AcceptedAt(Do(s, e), x, r, k) && !AcceptedAt(s, x, r, k)
    ensures Underway(s, x, r, k)
  {
    assert e.QueueStep? && e.q == x;
    var q, qe := s.queues[x], e.e;
    InternalStep(q, qe);
    assert qe.Send? && |q.outChan| < q.capacity;
    AcceptedPacket(s, Do(s, e), x, qe.p);
    assert CallOk(s, x, qe.p);
  }

  /** A session becomes due only when its message is begun, or again when a PONG to it failed. */
  lemma UnderwayWas(s: State, e: Event, x: SessionId, r: nat, k: nat)
    requires Inv(s) && Enabled(s, e) && r < |s.readers| && k < s.readers[r].begun
    requires Underway(Do(s, e), x, r, k) && !Underway(s, x, r, k)
    ensures k < |Inputs(s, r)| && Inputs(s, r)[k].command == CMD_PING
  {
    assert TaskOk(s, r);
    assert e == FinishSend(r);
    InputsInLimits(s, r, k);
    CarriesInLimits(Current(s, r), s.readers[r].task.msg);
  }

  lemma StepRefused(s: State, e: Event, x: SessionId, r: nat, k: nat)
    requires Inv(s) && Enabled(s, e) && RefusedForGood(s, x, r, k)
    ensures Shape(Do(s, e)) && RefusedForGood(Do(s, e), x, r, k)
  {
    DoKeepsShape(s, e);
    if Inputs(s, r)[k].command != CMD_PING {
      if AcceptedAt(Do(s, e), x, r, k) {
        AcceptedWasUnderway(s, e, x, r, k);
      }
      if Underway(Do(s, e), x, r, k) {
        UnderwayWas(s, e, x, r, k);
      }
    }
  }

  lemma NewlyRefused(s: State, e: Event, x: SessionId, r: nat, k: nat)
    requires Inv(s) && Enabled(s, e) && (x, r, k) in Do(s, e).refused && (x, r, k) !in s.refused
    ensures Shape(Do(s, e)) && RefusedForGood(Do(s, e), x, r, k)
  {
    DoKeepsShape(s, e);
    assert e == FinishSend(r);
    assert TaskOk(s, r) && CallOk(s, x, r) && NotYet(s, x, r);
    assert Awaits(s, x, r);
    var targets := s.readers[r].task.targets;
    assert x == targets[0] && x !in targets[1..];
    OnlyPongRetries(s, r);
    InputsInLimits(s, r, k);
    CarriesInLimits(Current(s, r), s.readers[r].task.msg);
  }

  lemma StepNoneLost(s: State, e: Event)
    requires Inv(s) && NoneLost(s) && Enabled(s, e)
    ensures Shape(Do(s, e)) && NoneLost(Do(s, e))
  {
    var s' := Do(s, e);
    DoKeepsShape(s, e);
    forall x, r, k | (x, r, k) in s'.refused
      ensures RefusedForGood(s', x, r, k)
    {
      if (x, r, k) in s.refused {
        StepRefused(s, e, x, r, k);
      } else {
        NewlyRefused(s, e, x, r, k);
      }
    }
    forall r | 0 <= r < |s'.readers|
      ensures Recorded(s', r)
    {
      StepRecorded(s, e, r);
    }
    forall q, r | 0 <= q < |s'.queues| && 0 <= r < |s'.readers|
      ensures Acked(s', q, r)
    {
      StepAcked(s, e, q, r);
    }
    forall r | 0 <= r < |s'.readers|
      ensures AllSettled(s', r)
    {
      StepSettled(s, e, r);
    }
  }

  lemma {:induction false} RunNoneLost(s: State, es: seq<Event>)
    requires Inv(s) && NoneLost(s) && IsRun(s, es)
    ensures NoneLost(Exec(s, es))
    decreases |es|
  {
    if es == [] {
    } else {
      StepNoneLost(s, es[0]);
      Delivery.StepInv(s, es[0]);
      RunNoneLost(Do(s, es[0]), es[1..]);
    }
  }

  /** The sessions a finished message was due to - each subscriber the router returned for a publish, the
      sender for anything else - have each accepted a frame about it or are on record as having refused
      it; never both, unless the message is a PING, whose failed PONG may be followed by an accepted ERR. */
  ghost predicate Concluded(s: State, r: nat, k: nat)
    requires r < |s.incoming| && k < |Inputs(s, r)|
  {
    var m := Inputs(s, r)[k];
    && (m.command == CMD_PUB ==> (r, k) in s.lookups)
    && (forall x :: x in Due(s, r, k) ==> AcceptedAt(s, x, r, k) || (x, r, k) in s.refused)
    && (forall x: SessionId :: m.command != CMD_PING && (x, r, k) in s.refused ==> !AcceptedAt(s, x, r, k))
  }

  /** Reader r is done with its message k. */
  predicate Finished(s: State, r: nat, k: nat)
    requires r < |s.readers|
  {
    k + 1 < s.readers[r].begun || (k + 1 == s.readers[r].begun && s.readers[r].task.Idle?)
  }

  lemma FinishedIsConcluded(s: State, r: nat, k: nat)
    requires Inv(s) && NoneLost(s) && r < |s.readers| && Finished(s, r, k)
    ensures k < |Inputs(s, r)| && Concluded(s, r, k)
  {
    assert TaskOk(s, r) && Recorded(s, r) && AllSettled(s, r);
    forall x | x in Due(s, r, k)
      ensures AcceptedAt(s, x, r, k) || (x, r, k) in s.refused
    {
      assert Settled(s, x, r, k);
    }
    forall x: SessionId | Inputs(s, r)[k].command != CMD_PING && (x, r, k) in s.refused
      ensures !AcceptedAt(s, x, r, k)
    {
      assert RefusedForGood(s, x, r, k);
    }
  }

  lemma StartNoneLost(incoming: seq<Str>, limit: int, capacity: nat)
    ensures NoneLost(Start(incoming, limit, capacity))
  {
  }

  /** In every run, every message a reader has finished is concluded. */
  lemma DeliveredOrRefused(incoming: seq<Str>, limit: int, capacity: nat, es: seq<Event>, r: nat, k: nat)
    requires r < |incoming| && IsRun(Start(incoming, limit, capacity), es)
    ensures var s := Exec(Start(incoming, limit, capacity), es);
            Finished(s, r, k) ==> k < |Inputs(s, r)| && Concluded(s, r, k)
  {
    var s0 := Start(incoming, limit, capacity);
    StartInv(incoming, limit, capacity);
    StartQueues(incoming, limit, capacity);
    StartNoneLost(incoming, limit, capacity);
    RunInv(s0, limit, es);
    RunNoneLost(s0, es);
    if Finished(Exec(s0, es), r, k) {
      FinishedIsConcluded(Exec(s0, es), r, k);
    }
  }
}
