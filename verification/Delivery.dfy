/** End-to-end delivery: what every run of the broker keeps, from the bytes the publishers sent to the
    bytes each subscriber can decode. */
module Delivery {
  import opened Broker
  import opened Bytes
  import opened Codec
  import opened Matching
  import opened Replies
  import opened Tables
  import SQ = SendQueue

  /** `out` is what the server may send about the message `m`. */
  ghost predicate Carries(m: Message, out: Message)
  {
    if m.command == CMD_PUB then out == Message(CMD_MSG, m.subject, m.payload)
    else if m.command == CMD_SUB then out == SubscribedReply(m.subject)
    else if m.command == CMD_UNSUB then out == UnsubscribedReply(m.subject)
    else if m.command == CMD_PING then out == PONG || exists why :: out == ErrMessage(HANDLE_ERROR + FailureText(why))
    else out == UnknownCommandReply(m.command)
  }

  lemma CarriesInLimits(m: Message, out: Message)
    requires InLimits(m) && Carries(m, out)
    ensures InLimits(out)
    ensures out == PONG ==> m.command == CMD_PING
  {
  }

  /** The message a busy reader is handling. */
  function Current(s: State, r: nat): (m: Message)
    requires Shape(s) && r < |s.readers| && 0 < s.readers[r].begun <= |Inputs(s, r)|
  {
    Inputs(s, r)[s.readers[r].begun - 1]
  }

  /** A publish reached session x because x held a matching pattern when the router was asked. */
  ghost predicate Routed(s: State, r: nat, k: nat, subject: Str, x: SessionId)
  {
    (r, k) in s.lookups && x in Subscribers(s.lookups[(r, k)], subject)
  }

  ghost predicate SendingOk(s: State, r: nat, targets: seq<SessionId>, msg: Message)
    requires Shape(s) && r < |s.readers| && 0 < s.readers[r].begun <= |Inputs(s, r)|
  {
    var m := Current(s, r);
    && NoDup(targets)
    && Carries(m, msg)
    && (forall x :: x in targets ==> x < |s.queues|)
    && (m.command == CMD_PUB ==> forall x :: x in targets ==> Routed(s, r, s.readers[r].begun - 1, m.subject, x))
    && (m.command != CMD_PUB ==> forall x :: x in targets ==> x == r)
  }

  ghost predicate TaskOk(s: State, r: nat)
    requires Shape(s) && r < |s.readers|
  {
    var Reader(_, begun, task) := s.readers[r];
    && begun <= |Inputs(s, r)|
    && (!task.Idle? ==> begun > 0)
    && (task.Appended? ==> Current(s, r).command == CMD_SUB && task.subject == Current(s, r).subject)
    && (task.Filtered? ==> Current(s, r).command == CMD_UNSUB && task.subject == Current(s, r).subject)
    && (task.Sending? ==> SendingOk(s, r, task.targets, task.msg))
  }

  predicate HasPacket(p: SQ.Producer) { p.Ready? || p.Loaded? || p.Reserved? || p.Refunding? }

  /** A reader is inside at most one enqueueEncoded: that of its first remaining target. */
  ghost predicate CallOk(s: State, q: nat, r: nat)
    requires Shape(s) && q < |s.queues| && r < |s.readers|
  {
    var p, rd := s.queues[q].producers[r], s.readers[r];
    !p.Idle? ==>
      && rd.task.Sending? && rd.task.targets != [] && rd.task.targets[0] == q && rd.begun > 0
      && (HasPacket(p) ==> p.packet == SQ.Packet(r, rd.begun - 1, rd.task.msg))
  }

  /** The message the reader is handling may still be accepted by queue q. */
  predicate Awaits(s: State, q: nat, r: nat)
    requires Shape(s) && q < |s.queues| && r < |s.readers|
  {
    var task := s.readers[r].task;
    || task.Appended? || task.Filtered?
    || (task.Sending? && task.targets != [] &&
        (q in task.targets[1..] || (q == task.targets[0] && s.queues[q].producers[r] != SQ.Returned(SQ.Accepted))))
  }

  /** Then nothing this reader sent about it has been accepted there. */
  ghost predicate NotYet(s: State, q: nat, r: nat)
    requires Shape(s) && q < |s.queues| && r < |s.readers|
  {
    Awaits(s, q, r) ==> forall p :: p in s.queues[q].accepted && p.sender == r ==> p.serial < s.readers[r].begun - 1
  }

  /** An accepted packet is what its sender's message calls for, and belongs in this queue. */
  ghost predicate PacketOk(s: State, q: nat, p: SQ.Packet)
    requires Shape(s)
  {
    && p.sender < |s.readers| && p.serial < s.readers[p.sender].begun && p.serial < |Inputs(s, p.sender)|
    && var m := Inputs(s, p.sender)[p.serial];
       && Carries(m, p.msg)
       && (m.command == CMD_PUB ==> Routed(s, p.sender, p.serial, m.subject, q))
       && (m.command != CMD_PUB ==> p.sender == q)
  }

  /** Each sender's packets appear in the order of the messages they answer, at most one per message. */
  ghost predicate Ordered(ps: seq<SQ.Packet>)
  {
    forall i, j :: 0 <= i < j < |ps| && ps[i].sender == ps[j].sender ==> ps[i].serial < ps[j].serial
  }

  ghost predicate Inv(s: State)
  {
    && Shape(s)
    && (forall pr :: pr in s.pairs ==> pr.1 < |s.queues|)
    && (forall r :: 0 <= r < |s.readers| ==> TaskOk(s, r))
    && (forall q :: 0 <= q < |s.queues| ==> Ordered(s.queues[q].accepted))
    && (forall q, r :: 0 <= q < |s.queues| && 0 <= r < |s.readers| ==> CallOk(s, q, r) && NotYet(s, q, r))
    && (forall q, p :: 0 <= q < |s.queues| && p in s.queues[q].accepted ==> PacketOk(s, q, p))
  }

  // ---------------------------------------------------------------- steps of a reader alone

  /** A step that replaces reader r and perhaps the router and a lookup not yet referred to. */
  ghost predicate ReaderStep(s: State, s': State, r: nat)
    requires Shape(s)
  {
    && Shape(s') && r < |s.readers|
    && s'.incoming == s.incoming && s'.queues == s.queues
    && s'.readers == s.readers[r := s'.readers[r]]
    && s'.readers[r].begun >= s.readers[r].begun
    && (forall k :: k in s.lookups && !(k.0 == r && k.1 >= s.readers[r].begun) ==>
          k in s'.lookups && s'.lookups[k] == s.lookups[k])
    && (forall pr :: pr in s'.pairs ==> pr.1 < |s.queues|)
  }

  lemma ReaderStepInv(s: State, s': State, r: nat)
    requires Inv(s) && ReaderStep(s, s', r)
    requires TaskOk(s', r)
    requires forall q :: 0 <= q < |s.queues| ==> CallOk(s', q, r) && NotYet(s', q, r)
    ensures Inv(s')
  {
    forall o | 0 <= o < |s.readers| && o != r
      ensures TaskOk(s', o)
    {
      assert TaskOk(s, o);
    }
    forall q, o | 0 <= q < |s.queues| && 0 <= o < |s.readers| && o != r
      ensures CallOk(s', q, o) && NotYet(s', q, o)
    {
      assert CallOk(s, q, o) && NotYet(s, q, o);
    }
    forall q, p | 0 <= q < |s.queues| && p in s.queues[q].accepted
      ensures PacketOk(s', q, p)
    {
      assert PacketOk(s, q, p);
    }
  }

  lemma InputsInLimits(s: State, r: nat, k: nat)
    requires r < |s.incoming| && k < |Inputs(s, r)|
    ensures InLimits(Inputs(s, r)[k])
  {
    DecodedFramesArePrefix(s.incoming[r]);
  }

  lemma BeginInv(s: State, r: nat, order: seq<SessionId>)
    requires Inv(s) && Enabled(s, Begin(r, order))
    ensures Inv(Do(s, Begin(r, order)))
  {
    var s' := Do(s, Begin(r, order));
    var m := Inputs(s, r)[s.readers[r].begun];
    assert TaskOk(s, r);
    assert Current(s', r) == m;
    if m.command == CMD_PUB {
      assert forall x :: x in order <==> x in Subscribers(s.pairs, m.subject);
      assert SendingOk(s', r, order, Message(CMD_MSG, m.subject, m.payload));
    }
    forall q | 0 <= q < |s.queues|
      ensures CallOk(s', q, r) && NotYet(s', q, r)
    {
      assert CallOk(s, q, r);
      forall p | p in s.queues[q].accepted && p.sender == r
        ensures p.serial < s'.readers[r].begun - 1
      {
        assert PacketOk(s, q, p);
      }
    }
    ReaderStepInv(s, s', r);
  }

  lemma RouterInv(s: State, r: nat, e: Event)
    requires Inv(s) && Enabled(s, e) && (e == RouterSubscribe(r) || e == RouterUnsubscribe(r))
    ensures Inv(Do(s, e))
  {
    var s' := Do(s, e);
    assert TaskOk(s, r);
    assert Current(s', r) == Current(s, r);
    forall q | 0 <= q < |s.queues|
      ensures CallOk(s', q, r) && NotYet(s', q, r)
    {
      assert CallOk(s, q, r) && NotYet(s, q, r);
    }
    ReaderStepInv(s, s', r);
  }

  lemma FinishInv(s: State, r: nat)
    requires Inv(s) && Enabled(s, Finish(r))
    ensures Inv(Do(s, Finish(r)))
  {
    var s' := Do(s, Finish(r));
    assert TaskOk(s, r);
    forall q | 0 <= q < |s.queues|
      ensures CallOk(s', q, r) && NotYet(s', q, r)
    {
      assert CallOk(s, q, r);
    }
    ReaderStepInv(s, s', r);
  }

  lemma RemoveInv(s: State, x: nat)
    requires Inv(s) && Enabled(s, RemoveClosed(x))
    ensures Inv(Do(s, RemoveClosed(x)))
  {
    var s' := Do(s, RemoveClosed(x));
    assert TaskOk(s, x);
    forall q | 0 <= q < |s.queues|
      ensures CallOk(s', q, x) && NotYet(s', q, x)
    {
      assert CallOk(s, q, x) && NotYet(s, q, x);
    }
    assert s'.readers == s.readers[x := s'.readers[x]];
    ReaderStepInv(s, s', x);
  }

  // ---------------------------------------------------------------- steps of a queue

  /** What an internal queue step does to one producer. */
  predicate ProducerMoves(p: SQ.Producer, p': SQ.Producer)
  {
    || p' == p
    || (HasPacket(p) && HasPacket(p') && p'.packet == p.packet)
    || (HasPacket(p) && p'.Returned?)
  }

  /** What an internal queue step does to the whole queue; `accepts` when producer o's packet goes in. */
  ghost predicate QueueMoves(q: SQ.Queue, q': SQ.Queue, accepts: bool, o: nat)
  {
    && |q'.producers| == |q.producers|
    && (forall i :: 0 <= i < |q.producers| ==> ProducerMoves(q.producers[i], q'.producers[i]))
    && (forall i :: 0 <= i < |q.producers| && q'.producers[i] == SQ.Returned(SQ.Accepted) ==>
          q.producers[i] == SQ.Returned(SQ.Accepted) || (accepts && i == o))
    && (!accepts ==> q'.accepted == q.accepted)
    && (accepts ==> o < |q.producers| && q.producers[o].Reserved? && q'.producers[o] == SQ.Returned(SQ.Accepted)
                    && q'.accepted == q.accepted + [q.producers[o].packet])
  }

  lemma InternalStep(q: SQ.Queue, e: SQ.Event)
    requires SQ.Enabled(q, e) && Internal(e)
    ensures QueueMoves(q, SQ.Do(q, e), e.Send? && |q.outChan| < q.capacity, if e.Send? then e.p else 0)
  {
  }

  /** Queue x has made an internal step and nothing else has changed. */
  ghost predicate StepsAt(s: State, s': State, x: nat, accepts: bool, o: nat)
    requires Shape(s)
  {
    && x < |s.queues| && Shape(s')
    && s' == s.(queues := s'.queues)
    && s'.queues == s.queues[x := s'.queues[x]]
    && QueueMoves(s.queues[x], s'.queues[x], accepts, o)
  }

  lemma CallMoves(s: State, s': State, x: nat, accepts: bool, o: nat, q: nat, r: nat)
    requires Shape(s) && StepsAt(s, s', x, accepts, o) && q < |s.queues| && r < |s.readers|
    requires CallOk(s, q, r)
    ensures CallOk(s', q, r)
  {
  }

  /** The accepted packet is the one its reader is sending, and it is that reader's first about its message. */
  lemma AcceptedPacket(s: State, s': State, x: nat, o: nat)
    requires Inv(s) && StepsAt(s, s', x, true, o)
    ensures var p := s.queues[x].producers[o].packet;
            && s.readers[o].begun > 0 && s.readers[o].task.Sending?
            && p == SQ.Packet(o, s.readers[o].begun - 1, s.readers[o].task.msg)
            && PacketOk(s', x, p)
            && (forall p' :: p' in s.queues[x].accepted && p'.sender == o ==> p'.serial < p.serial)
            && !Awaits(s', x, o)
  {
    assert CallOk(s, x, o) && NotYet(s, x, o) && TaskOk(s, o);
    var targets := s.readers[o].task.targets;
    assert Awaits(s, x, o);
    assert targets[0] == x && x in targets && x !in targets[1..];
  }

  lemma NotYetMoves(s: State, s': State, x: nat, accepts: bool, o: nat, q: nat, r: nat)
    requires Inv(s) && StepsAt(s, s', x, accepts, o) && q < |s.queues| && r < |s.readers|
    ensures NotYet(s', q, r)
  {
    assert NotYet(s, q, r);
    if accepts {
      AcceptedPacket(s, s', x, o);
    }
  }

  lemma PacketsMove(s: State, s': State, x: nat, accepts: bool, o: nat)
    requires Inv(s) && StepsAt(s, s', x, accepts, o)
    ensures Ordered(s'.queues[x].accepted)
    ensures forall q, p :: 0 <= q < |s.queues| && p in s'.queues[q].accepted ==> PacketOk(s', q, p)
  {
    if accepts {
      AcceptedPacket(s, s', x, o);
      assert forall i :: 0 <= i < |s.queues[x].accepted| ==> s.queues[x].accepted[i] in s.queues[x].accepted;
    }
    forall q, p | 0 <= q < |s.queues| && p in s'.queues[q].accepted
      ensures PacketOk(s', q, p)
    {
      if p in s.queues[q].accepted {
        assert PacketOk(s, q, p);
      }
    }
  }

  lemma StepsAtInv(s: State, s': State, x: nat, accepts: bool, o: nat)
    requires Inv(s) && StepsAt(s, s', x, accepts, o)
    ensures Inv(s')
  {
    PacketsMove(s, s', x, accepts, o);
    forall r | 0 <= r < |s.readers|
      ensures TaskOk(s', r)
    {
      assert TaskOk(s, r);
    }
    forall q, r | 0 <= q < |s.queues| && 0 <= r < |s.readers|
      ensures CallOk(s', q, r) && NotYet(s', q, r)
    {
      assert CallOk(s, q, r);
      CallMoves(s, s', x, accepts, o, q, r);
      NotYetMoves(s, s', x, accepts, o, q, r);
    }
  }

  lemma QueueStepInv(s: State, x: nat, e: SQ.Event)
    requires Inv(s) && Enabled(s, QueueStep(x, e))
    ensures Inv(Do(s, QueueStep(x, e)))
  {
    InternalStep(s.queues[x], e);
    StepsAtInv(s, Do(s, QueueStep(x, e)), x, e.Send? && |s.queues[x].outChan| < s.queues[x].capacity,
               if e.Send? then e.p else 0);
  }

  // ---------------------------------------------------------------- entering and leaving a send

  /** Reader r and its producer in queue x have changed, and nothing else. */
  ghost predicate Moved(s: State, s': State, x: nat, r: nat)
    requires Shape(s)
  {
    && x < |s.queues| && r < |s.readers| && Shape(s')
    && s' == s.(queues := s'.queues, readers := s'.readers, refused := s'.refused)
    && s'.readers == s.readers[r := s'.readers[r]]
    && s'.readers[r].begun == s.readers[r].begun
    && s'.queues == s.queues[x := s'.queues[x]]
    && s'.queues[x].accepted == s.queues[x].accepted
    && s'.queues[x].producers == s.queues[x].producers[r := s'.queues[x].producers[r]]
  }

  lemma MovedInv(s: State, s': State, x: nat, r: nat)
    requires Inv(s) && Moved(s, s', x, r)
    requires TaskOk(s', r)
    requires forall q :: 0 <= q < |s.queues| ==> CallOk(s', q, r) && NotYet(s', q, r)
    ensures Inv(s')
  {
    forall o | 0 <= o < |s.readers| && o != r
      ensures TaskOk(s', o)
    {
      assert TaskOk(s, o);
    }
    forall q, o | 0 <= q < |s.queues| && 0 <= o < |s.readers| && o != r
      ensures CallOk(s', q, o) && NotYet(s', q, o)
    {
      assert CallOk(s, q, o) && NotYet(s, q, o);
    }
    forall q, p | 0 <= q < |s.queues| && p in s'.queues[q].accepted
      ensures PacketOk(s', q, p)
    {
      assert PacketOk(s, q, p);
    }
  }

  lemma StartSendInv(s: State, r: nat)
    requires Inv(s) && Enabled(s, StartSend(r))
    ensures Inv(Do(s, StartSend(r)))
  {
    var s', x := Do(s, StartSend(r)), s.readers[r].task.targets[0];
    assert Moved(s, s', x, r);
    assert TaskOk(s, r) && TaskOk(s', r);
    forall q | 0 <= q < |s.queues|
      ensures CallOk(s', q, r) && NotYet(s', q, r)
    {
      assert CallOk(s, q, r) && NotYet(s, q, r);
    }
    MovedInv(s, s', x, r);
  }

  /** The state after a send that returned `outcome`, with the queue's Return written out. */
  ghost predicate Leaves(s: State, s': State, x: nat, r: nat)
    requires Shape(s)
  {
    && Moved(s, s', x, r)
    && s.readers[r].task.Sending? && s.readers[r].task.targets != [] && s.readers[r].task.targets[0] == x
    && s.queues[x].producers[r].Returned?
    && s'.readers[r] == s.readers[r].(task := AfterSend(r, s.readers[r].task, s.queues[x].producers[r].outcome))
    && s'.queues[x].producers[r].Idle?
  }

  lemma LeavesTask(s: State, s': State, x: nat, r: nat)
    requires Inv(s) && Leaves(s, s', x, r)
    ensures TaskOk(s', r)
  {
    assert TaskOk(s, r);
    var task, m := s.readers[r].task, Current(s, r);
    InputsInLimits(s, r, s.readers[r].begun - 1);
    CarriesInLimits(m, task.msg);
    assert Current(s', r) == m;
    var outcome := s.queues[x].producers[r].outcome;
    if outcome.Failed? && task.msg == PONG {
      assert Carries(m, ErrMessage(HANDLE_ERROR + FailureText(outcome.why)));
    } else {
      assert forall y :: y in task.targets[1..] ==> y in task.targets;
      assert SendingOk(s', r, task.targets[1..], task.msg);
    }
  }

  lemma LeavesCalls(s: State, s': State, x: nat, r: nat, q: nat)
    requires Inv(s) && Leaves(s, s', x, r) && q < |s.queues|
    ensures CallOk(s', q, r) && NotYet(s', q, r)
  {
    assert CallOk(s, q, r) && NotYet(s, q, r) && TaskOk(s, r);
    var task := s.readers[r].task;
    InputsInLimits(s, r, s.readers[r].begun - 1);
    CarriesInLimits(Current(s, r), task.msg);
    assert x in task.targets;
    if Awaits(s', q, r) {
      assert q in s'.readers[r].task.targets;
      assert q == x || q in task.targets[1..];
    }
  }

  lemma FinishSendInv(s: State, r: nat)
    requires Inv(s) && Enabled(s, FinishSend(r))
    ensures Inv(Do(s, FinishSend(r)))
  {
    var s', x := Do(s, FinishSend(r)), s.readers[r].task.targets[0];
    assert Leaves(s, s', x, r);
    LeavesTask(s, s', x, r);
    forall q | 0 <= q < |s.queues|
      ensures CallOk(s', q, r) && NotYet(s', q, r)
    {
      LeavesCalls(s, s', x, r, q);
    }
    MovedInv(s, s', x, r);
  }

  // ---------------------------------------------------------------- whole runs

  lemma StepInv(s: State, e: Event)
    requires Inv(s) && Enabled(s, e)
    ensures Inv(Do(s, e))
  {
    match e
    case Begin(r, order) => BeginInv(s, r, order);
    case RouterSubscribe(r) => RouterInv(s, r, e);
    case RouterUnsubscribe(r) => RouterInv(s, r, e);
    case StartSend(r) => StartSendInv(s, r);
    case QueueStep(q, qe) => QueueStepInv(s, q, qe);
    case FinishSend(r) => FinishSendInv(s, r);
    case Finish(r) => FinishInv(s, r);
    case RemoveClosed(q) => RemoveInv(s, q);
  }

  /** Every queue keeps its own invariant: byte conservation and acceptance order. */
  predicate QueuesInv(s: State, limit: int)
  {
    forall q :: 0 <= q < |s.queues| ==> SQ.Inv(s.queues[q]) && s.queues[q].limit == limit
  }

  lemma StepQueues(s: State, limit: int, e: Event)
    requires Shape(s) && QueuesInv(s, limit) && Enabled(s, e)
    ensures QueuesInv(Do(s, e), limit)
  {
    match e
    case StartSend(r) =>
      var x := s.readers[r].task.targets[0];
      SQ.StepInv(s.queues[x], SQ.Call(r, SQ.Packet(r, s.readers[r].begun - 1, s.readers[r].task.msg)));
    case QueueStep(q, qe) => SQ.StepInv(s.queues[q], qe);
    case FinishSend(r) => SQ.StepInv(s.queues[s.readers[r].task.targets[0]], SQ.Return(r));
    case _ =>
  }

  lemma {:induction false} RunInv(s: State, limit: int, es: seq<Event>)
    requires Inv(s) && QueuesInv(s, limit) && IsRun(s, es)
    ensures Inv(Exec(s, es)) && QueuesInv(Exec(s, es), limit)
    decreases |es|
  {
    if es == [] {
    } else {
      StepInv(s, es[0]);
      StepQueues(s, limit, es[0]);
      RunInv(Do(s, es[0]), limit, es[1..]);
    }
  }

  lemma StartInv(incoming: seq<Str>, limit: int, capacity: nat)
    ensures Inv(Start(incoming, limit, capacity))
  {
  }

  lemma StartQueues(incoming: seq<Str>, limit: int, capacity: nat)
    ensures QueuesInv(Start(incoming, limit, capacity), limit)
  {
    SQ.StartInv(limit, capacity, |incoming|);
  }

  /** What session q's peer can decode of the bytes q's write loop has put on the wire. */
  function Decoded(s: State, q: nat): (ms: seq<Message>)
    requires q < |s.queues|
  {
    DecodeStream(SQ.Written(s.queues[q]))
  }

  /** It is exactly a prefix of the messages q accepted, at least all that were handed over; one sender's
      messages keep their order and each gives at most one frame; and each decoded message is what its
      sender's message calls for. */
  ghost predicate Delivers(s: State, q: nat)
    requires Shape(s) && q < |s.queues|
  {
    var decoded, accepted := Decoded(s, q), s.queues[q].accepted;
    && SQ.Messages(s.queues[q].handed) <= decoded <= SQ.Messages(accepted)
    && Ordered(accepted)
    && (forall i :: 0 <= i < |decoded| ==> decoded[i] == accepted[i].msg && PacketOk(s, q, accepted[i]))
  }

  lemma AcceptedInLimits(s: State, q: nat, p: SQ.Packet)
    requires Shape(s) && PacketOk(s, q, p)
    ensures InLimits(p.msg)
  {
    InputsInLimits(s, p.sender, p.serial);
    CarriesInLimits(Inputs(s, p.sender)[p.serial], p.msg);
  }

  lemma InvDelivers(s: State, q: nat)
    requires Inv(s) && q < |s.queues| && SQ.Inv(s.queues[q])
    ensures Delivers(s, q)
  {
    var accepted := s.queues[q].accepted;
    forall i | 0 <= i < |accepted|
      ensures PacketOk(s, q, accepted[i]) && InLimits(accepted[i].msg)
    {
      assert accepted[i] in accepted;
      AcceptedInLimits(s, q, accepted[i]);
    }
    SQ.WrittenDecodes(s.queues[q]);
    var all := SQ.Messages(accepted);
    assert forall i :: 0 <= i < |Decoded(s, q)| ==> Decoded(s, q)[i] == all[i];
  }

  /** End-to-end delivery, for every run, every session and every interleaving. */
  lemma EndToEnd(incoming: seq<Str>, limit: int, capacity: nat, es: seq<Event>, q: nat)
    requires q < |incoming| && IsRun(Start(incoming, limit, capacity), es)
    ensures Delivers(Exec(Start(incoming, limit, capacity), es), q)
  {
    StartInv(incoming, limit, capacity);
    StartQueues(incoming, limit, capacity);
    RunInv(Start(incoming, limit, capacity), limit, es);
    InvDelivers(Exec(Start(incoming, limit, capacity), es), q);
  }

  /** In every run of the whole server each session's queue stays within its byte limit. */
  lemma QueuesStayBounded(incoming: seq<Str>, limit: int, capacity: nat, es: seq<Event>, q: nat)
    requires q < |incoming| && SQ.RoomyLimit(limit) && IsRun(Start(incoming, limit, capacity), es)
    ensures var queue := Exec(Start(incoming, limit, capacity), es).queues[q];
            0 <= queue.queued == SQ.Outstanding(queue) <= limit
  {
    StartInv(incoming, limit, capacity);
    StartQueues(incoming, limit, capacity);
    RunInv(Start(incoming, limit, capacity), limit, es);
    assert SQ.Inv(Exec(Start(incoming, limit, capacity), es).queues[q]);
  }

  /** The publish and the pattern behind a MSG that session q received. */
  ghost predicate FromPublish(s: State, q: nat, out: Message, r: nat, k: nat, pattern: Str)
  {
    && r < |s.incoming| && k < |Inputs(s, r)| && Inputs(s, r)[k] == Message(CMD_PUB, out.subject, out.payload)
    && (r, k) in s.lookups && (pattern, q) in s.lookups[(r, k)]
    && Matches(pattern, out.subject) && ClientMatches(pattern, out.subject)
  }

  lemma CarriesMsg(m: Message, out: Message)
    requires Carries(m, out) && out.command == CMD_MSG
    ensures m == Message(CMD_PUB, out.subject, out.payload)
  {
  }

  /** Frame i of session q, if it is a MSG, comes from the message its packet names. */
  lemma FrameFromPublish(s: State, q: nat, i: nat)
    requires Shape(s) && q < |s.queues| && Delivers(s, q) && i < |Decoded(s, q)|
    ensures i < |s.queues[q].accepted|
    ensures var out, p := Decoded(s, q)[i], s.queues[q].accepted[i];
            out.command == CMD_MSG ==> exists pattern :: FromPublish(s, q, out, p.sender, p.serial, pattern)
  {
    var out, p := Decoded(s, q)[i], s.queues[q].accepted[i];
    assert PacketOk(s, q, p);
    if out.command == CMD_MSG {
      CarriesMsg(Inputs(s, p.sender)[p.serial], out);
      var pr :| pr in s.lookups[(p.sender, p.serial)] && Matches(pr.0, out.subject) && pr.1 == q;
      assert FromPublish(s, q, out, p.sender, p.serial, pr.0);
    }
  }

  /** In every run, a MSG that session q can decode comes from a PUB some client sent, subject and payload
      unchanged, and q held a pattern for it that matches on the server and on the client. */
  lemma DeliveredPublish(incoming: seq<Str>, limit: int, capacity: nat, es: seq<Event>, q: nat)
    requires q < |incoming| && IsRun(Start(incoming, limit, capacity), es)
    ensures var s := Exec(Start(incoming, limit, capacity), es);
            forall out :: out in Decoded(s, q) && out.command == CMD_MSG ==>
              exists r, k, pattern :: FromPublish(s, q, out, r, k, pattern)
  {
    EndToEnd(incoming, limit, capacity, es, q);
    var s := Exec(Start(incoming, limit, capacity), es);
    forall out | out in Decoded(s, q) && out.command == CMD_MSG
      ensures exists r, k, pattern :: FromPublish(s, q, out, r, k, pattern)
    {
      var i :| 0 <= i < |Decoded(s, q)| && Decoded(s, q)[i] == out;
      FrameFromPublish(s, q, i);
    }
  }
}
