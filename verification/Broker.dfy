/** The running server: every session's reader handling its messages one by one, the shared router,
    and every session's send queue, interleaved step by step. */
module Broker {
  import opened Bytes
  import opened Codec
  import opened Replies
  import opened Tables
  import SQ = SendQueue

  /** Where a reader is while handling a message. */
  datatype Task =
    | Idle
    | Appended(subject: Str)                       // handleSubscribe, before router.Subscribe
    | Filtered(subject: Str)                       // handleUnsubscribe, before router.Unsubscribe
    | Sending(targets: seq<SessionId>, msg: Message)  // sessions that still get the frame

  /** `begun` counts the messages taken from the connection. */
  datatype Reader = Reader(subjects: seq<Str>, begun: nat, task: Task)

  /** `incoming` is what each client has put on its connection. `lookups` and `refused` are histories:
      what the router held when a publish looked up its subscribers, and the sends that failed, as
      (session, sender, number of the sender's message). */
  datatype State = State(
    incoming: seq<Str>,
    pairs: set<Pair>,
    readers: seq<Reader>,
    queues: seq<SQ.Queue>,
    removed: set<SessionId>,
    lookups: map<(nat, nat), set<Pair>>,
    refused: set<(SessionId, nat, nat)>)

  /** The messages a session's reader gets from its connection. */
  function Inputs(s: State, r: nat): (ms: seq<Message>)
    requires r < |s.incoming|
  {
    DecodeStream(s.incoming[r])
  }

  function Start(incoming: seq<Str>, limit: int, capacity: nat): (s: State)
  {
    var n := |incoming|;
    State(incoming, {}, seq(n, _ => Reader([], 0, Idle)), seq(n, _ => SQ.Start(limit, capacity, n)), {}, map[], {})
  }

  datatype Event =
    | Begin(r: nat, order: seq<SessionId>)  // take the next message; `order` lists a publish's subscribers
    | RouterSubscribe(r: nat)
    | RouterUnsubscribe(r: nat)
    | StartSend(r: nat)
    | QueueStep(q: nat, e: SQ.Event)        // a producer inside enqueueEncoded, the writer, or Close
    | FinishSend(r: nat)
    | Finish(r: nat)
    | RemoveClosed(q: nat)                  // Close: router.RemoveSession

  predicate Internal(e: SQ.Event) { !e.Call? && !e.Return? }

  predicate Shape(s: State)
  {
    && |s.readers| == |s.queues| == |s.incoming|
    && (forall q :: 0 <= q < |s.queues| ==> |s.queues[q].producers| == |s.readers|)
  }

  predicate Enabled(s: State, e: Event)
    requires Shape(s)
  {
    match e
    case Begin(r, order) =>
      && r < |s.readers| && s.readers[r].task.Idle? && s.readers[r].begun < |Inputs(s, r)|
      && var m := Inputs(s, r)[s.readers[r].begun];
         m.command == CMD_PUB ==>
           NoDup(order) && (set x | x in order) == Subscribers(s.pairs, m.subject)
    case RouterSubscribe(r) => r < |s.readers| && s.readers[r].task.Appended?
    case RouterUnsubscribe(r) => r < |s.readers| && s.readers[r].task.Filtered?
    case StartSend(r) =>
      && r < |s.readers| && s.readers[r].task.Sending? && s.readers[r].task.targets != []
      && var q := s.readers[r].task.targets[0];
         q < |s.queues| && s.readers[r].begun > 0 && s.queues[q].producers[r].Idle?
    case QueueStep(q, qe) => q < |s.queues| && Internal(qe) && SQ.Enabled(s.queues[q], qe)
    case FinishSend(r) =>
      && r < |s.readers| && s.readers[r].task.Sending? && s.readers[r].task.targets != []
      && var q := s.readers[r].task.targets[0];
         q < |s.queues| && s.readers[r].begun > 0 && s.queues[q].producers[r].Returned?
    case Finish(r) => r < |s.readers| && s.readers[r].task.Sending? && s.readers[r].task.targets == []
    case RemoveClosed(q) => q < |s.queues| && s.queues[q].closed && q !in s.removed
  }

  /** HandleMessage up to its first shared step: the new `subjects` list and what is left to do. */
  function Handle(r: nat, subjects: seq<Str>, m: Message, order: seq<SessionId>): (res: (seq<Str>, Task))
  {
    if m.command == CMD_SUB then
      if m.subject in subjects then (subjects, Sending([r], SubscribedReply(m.subject)))
      else (subjects + [m.subject], Appended(m.subject))
    else if m.command == CMD_UNSUB then (Without(subjects, m.subject), Filtered(m.subject))
    else if m.command == CMD_PUB then (subjects, Sending(order, Message(CMD_MSG, m.subject, m.payload)))
    else if m.command == CMD_PING then (subjects, Sending([r], PONG))
    else (subjects, Sending([r], UnknownCommandReply(m.command)))
  }

  function FailureText(why: SQ.Failure): (t: Str)
  {
    match why
    case SessionClosed => Ascii("session closed")
    case TooLarge => Ascii("encoded message too large")
    case Backpressure => Ascii("backpressure limit exceeded")
    case QueueFull => Ascii("send queue full")
  }

  /** After one send has returned: a failed PONG is the one failure HandleMessage reports, with an ERR. */
  function AfterSend(r: nat, task: Task, outcome: SQ.Outcome): (t: Task)
    requires task.Sending? && task.targets != []
  {
    if outcome.Failed? && task.msg == PONG then Sending([r], ErrMessage(HANDLE_ERROR + FailureText(outcome.why)))
    else Sending(task.targets[1..], task.msg)
  }

  function Do(s: State, e: Event): (s': State)
    requires Shape(s) && Enabled(s, e)
  {
    match e
    case Begin(r, order) =>
      var Reader(subjects, k, _) := s.readers[r];
      var m := Inputs(s, r)[k];
      var (subjects', task) := Handle(r, subjects, m, order);
      s.(readers := s.readers[r := Reader(subjects', k + 1, task)],
         lookups := if m.command == CMD_PUB then s.lookups[(r, k) := s.pairs] else s.lookups)
    case RouterSubscribe(r) =>
      var subject := s.readers[r].task.subject;
      s.(pairs := SetStep(s.pairs, Subscribe(subject, r)),
         readers := s.readers[r := s.readers[r].(task := Sending([r], SubscribedReply(subject)))])
    case RouterUnsubscribe(r) =>
      var subject := s.readers[r].task.subject;
      s.(pairs := SetStep(s.pairs, Unsubscribe(subject, r)),
         readers := s.readers[r := s.readers[r].(task := Sending([r], UnsubscribedReply(subject)))])
    case StartSend(r) =>
      var Reader(_, begun, Sending(targets, msg)) := s.readers[r];
      var packet := SQ.Packet(r, begun - 1, msg);
      s.(queues := s.queues[targets[0] := SQ.Do(s.queues[targets[0]], SQ.Call(r, packet))])
    case QueueStep(q, qe) => s.(queues := s.queues[q := SQ.Do(s.queues[q], qe)])
    case FinishSend(r) =>
      var task := s.readers[r].task;
      var q := task.targets[0];
      var outcome := s.queues[q].producers[r].outcome;
      s.(queues := s.queues[q := SQ.Do(s.queues[q], SQ.Return(r))],
         readers := s.readers[r := s.readers[r].(task := AfterSend(r, task, outcome))],
         refused := if outcome.Failed? then s.refused + {(q, r, s.readers[r].begun - 1)} else s.refused)
    case Finish(r) => s.(readers := s.readers[r := s.readers[r].(task := Idle)])
    case RemoveClosed(q) => s.(pairs := SetStep(s.pairs, RemoveSession(q)), removed := s.removed + {q})
  }

  lemma DoKeepsShape(s: State, e: Event)
    requires Shape(s) && Enabled(s, e)
    ensures Shape(Do(s, e)) && Do(s, e).incoming == s.incoming
  {
  }

  predicate IsRun(s: State, es: seq<Event>)
    requires Shape(s)
    decreases |es|
  {
    es == [] || (Enabled(s, es[0]) && (DoKeepsShape(s, es[0]); IsRun(Do(s, es[0]), es[1..])))
  }

  function Exec(s: State, es: seq<Event>): (s': State)
    requires Shape(s) && IsRun(s, es)
    ensures Shape(s') && s'.incoming == s.incoming
    decreases |es|
  {
    if es == [] then s else DoKeepsShape(s, es[0]); Exec(Do(s, es[0]), es[1..])
  }

  lemma {:induction false} RunJoin(s: State, es1: seq<Event>, es2: seq<Event>)
    requires Shape(s) && IsRun(s, es1) && IsRun(Exec(s, es1), es2)
    ensures IsRun(s, es1 + es2) && Exec(s, es1 + es2) == Exec(Exec(s, es1), es2)
    decreases |es1|
  {
    if es1 == [] {
      assert es1 + es2 == es2;
    } else {
      DoKeepsShape(s, es1[0]);
      assert (es1 + es2)[1..] == es1[1..] + es2;
      RunJoin(Do(s, es1[0]), es1[1..], es2);
    }
  }
}
