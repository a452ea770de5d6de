/** A client subscription's message queue (client/subscription.go): enqueuers, the processing goroutine
    and the first Unsubscribe, interleaved step by step. */
module Subscription {
  import opened Bytes

  datatype Note = Note(subject: Str, data: Str)

  /** A caller of TryEnqueue, before or after its load of `active`. */
  datatype Enqueuer = Outside | SawActive(note: Note)

  /** The processing goroutine: blocked on the channel, inside the callback, about to count, or gone. */
  datatype Processor = Receiving | InCallback(note: Note) | Counting(note: Note) | Gone

  /** The body of the first Unsubscribe, or the end of an attempt to subscribe that failed: its
      subscription is never returned, so only one of the two can happen. */
  datatype Unsubscriber =
    | NotCalled
    | Checked | Deactivated | Waiting | Drained | Skipped
    | Failing | Abandoned

  /** `accepted`, `handed` and `offered` are histories: the messages that entered the channel, those passed
      to the callback, and how many sends were tried while the channel was open. */
  datatype State = State(
    capacity: nat,
    active: bool,
    msgChan: seq<Note>,
    chanClosed: bool,
    enqueuers: seq<Enqueuer>,
    processor: Processor,
    unsubscriber: Unsubscriber,
    processedCount: nat,
    droppedCount: nat,
    accepted: seq<Note>,
    handed: seq<Note>,
    offered: nat)

  function Start(capacity: nat, callers: nat): (s: State)
  {
    State(capacity, true, [], false, seq(callers, _ => Outside), Receiving, NotCalled, 0, 0, [], [], 0)
  }

  datatype Event =
    | LoadActive(i: nat, note: Note)
    | TrySend(i: nat)
    | Receive
    | CallbackReturns
    | CountProcessed
    | ProcessorEnds
    | UnsubscribeLoads
    | UnsubscribeStores
    | UnsubscribeCloses
    | WaitReturns
    | AttemptStores
    | AttemptCloses
    | ClientDeactivates  // Client.Close, or a restore that failed

  predicate Enabled(s: State, e: Event)
  {
    match e
    case LoadActive(i, _) => i < |s.enqueuers| && s.enqueuers[i].Outside?
    case TrySend(i) => i < |s.enqueuers| && s.enqueuers[i].SawActive?
    case Receive => s.processor.Receiving? && s.msgChan != []
    case CallbackReturns => s.processor.InCallback?
    case CountProcessed => s.processor.Counting?
    case ProcessorEnds => s.processor.Receiving? && s.msgChan == [] && s.chanClosed
    case UnsubscribeLoads => s.unsubscriber.NotCalled?
    case UnsubscribeStores => s.unsubscriber.Checked?
    case UnsubscribeCloses => s.unsubscriber.Deactivated?
    case WaitReturns => s.unsubscriber.Waiting? && s.processor.Gone?
    case AttemptStores => s.unsubscriber.NotCalled?
    case AttemptCloses => s.unsubscriber.Failing?
    case ClientDeactivates => true
  }

  function Do(s: State, e: Event): (s': State)
    requires Enabled(s, e)
  {
    match e
    case LoadActive(i, note) => if s.active then s.(enqueuers := s.enqueuers[i := SawActive(note)]) else s
    case TrySend(i) =>
      var note, s1 := s.enqueuers[i].note, s.(enqueuers := s.enqueuers[i := Outside]);
      if s.chanClosed then s1 // the send panics and is recovered: false
      else if |s.msgChan| < s.capacity
      then s1.(msgChan := s.msgChan + [note], accepted := s.accepted + [note], offered := s.offered + 1)
      else s1.(droppedCount := s.droppedCount + 1, offered := s.offered + 1)
    case Receive =>
      s.(msgChan := s.msgChan[1..], processor := InCallback(s.msgChan[0]), handed := s.handed + [s.msgChan[0]])
    case CallbackReturns => s.(processor := Counting(s.processor.note))
    case CountProcessed => s.(processor := Receiving, processedCount := s.processedCount + 1)
    case ProcessorEnds => s.(processor := Gone)
    case UnsubscribeLoads => s.(unsubscriber := if s.active then Checked else Skipped)
    case UnsubscribeStores => s.(active := false, unsubscriber := Deactivated)
    case UnsubscribeCloses => s.(chanClosed := true, unsubscriber := Waiting)
    case WaitReturns => s.(unsubscriber := Drained)
    case AttemptStores => s.(active := false, unsubscriber := Failing)
    case AttemptCloses => s.(chanClosed := true, unsubscriber := Abandoned)
    case ClientDeactivates => s.(active := false)
  }

  predicate IsRun(s: State, es: seq<Event>)
    decreases |es|
  {
    es == [] || (Enabled(s, es[0]) && IsRun(Do(s, es[0]), es[1..]))
  }

  function Exec(s: State, es: seq<Event>): (s': State)
    requires IsRun(s, es)
    decreases |es|
  {
    if es == [] then s else Exec(Do(s, es[0]), es[1..])
  }

  /** Messages handed to the callback and not yet counted. */
  function InFlight(p: Processor): (n: nat) { if p.InCallback? || p.Counting? then 1 else 0 }

  predicate Inv(s: State)
  {
    && s.accepted == s.handed + s.msgChan
    && |s.handed| == s.processedCount + InFlight(s.processor)
    && s.offered == |s.accepted| + s.droppedCount
    && |s.msgChan| <= s.capacity
    && (s.chanClosed <==> s.unsubscriber.Waiting? || s.unsubscriber.Drained? || s.unsubscriber.Abandoned?)
    && (s.chanClosed || s.unsubscriber.Deactivated? || s.unsubscriber.Failing? ==> !s.active)
    && (s.processor.Gone? ==> s.msgChan == [] && s.chanClosed)
    && (s.unsubscriber.Drained? ==> s.processor.Gone?)
  }

  lemma StepInv(s: State, e: Event)
    requires Inv(s) && Enabled(s, e)
    ensures Inv(Do(s, e))
  {
    match e
    case TrySend(i) =>
      assert s.handed + (s.msgChan + [s.enqueuers[i].note]) == (s.handed + s.msgChan) + [s.enqueuers[i].note];
    case Receive =>
      assert s.msgChan == [s.msgChan[0]] + s.msgChan[1..];
    case _ =>
  }

  lemma {:induction false} RunInv(s: State, es: seq<Event>)
    requires Inv(s) && IsRun(s, es)
    ensures Inv(Exec(s, es))
    decreases |es|
  {
    if es == [] {
    } else {
      StepInv(s, es[0]);
      RunInv(Do(s, es[0]), es[1..]);
    }
  }

  /** A message is offered while the open channel holds as many messages as it can. */
  predicate Overflows(s: State, e: Event)
  {
    e.TrySend? && !s.chanClosed && |s.msgChan| == s.capacity
  }

  lemma {:induction false} CapacityIsFixed(s: State, es: seq<Event>)
    requires IsRun(s, es)
    ensures Exec(s, es).capacity == s.capacity
    decreases |es|
  {
    if es == [] {
    } else {
      CapacityIsFixed(Do(s, es[0]), es[1..]);
    }
  }

  /** In every interleaving a step counts a drop exactly when it offers a message to a full open channel,
      and a message offered to an open channel with room enters it at the end. */
  lemma DropsIffFull(capacity: nat, callers: nat, es: seq<Event>, e: Event)
    requires IsRun(Start(capacity, callers), es) && Enabled(Exec(Start(capacity, callers), es), e)
    ensures var s := Exec(Start(capacity, callers), es);
            && s.capacity == capacity && |s.msgChan| <= capacity
            && Do(s, e).droppedCount == s.droppedCount + (if Overflows(s, e) then 1 else 0)
            && (e.TrySend? && !s.chanClosed && |s.msgChan| < capacity ==>
                  Do(s, e).msgChan == s.msgChan + [s.enqueuers[e.i].note])
            && (Do(s, e).accepted != s.accepted ==> e.TrySend? && !s.chanClosed && |s.msgChan| < capacity)
  {
    RunInv(Start(capacity, callers), es);
    CapacityIsFixed(Start(capacity, callers), es);
  }

  /** In every interleaving: accepted messages are those processed, in the callback or queued; a message
      offered to the open channel is accepted or counted as dropped; callbacks run in acceptance order; and
      when Unsubscribe's wait has returned, every accepted message has been handed to the callback exactly
      once and counted. */
  lemma DrainIsComplete(capacity: nat, callers: nat, es: seq<Event>)
    requires IsRun(Start(capacity, callers), es)
    ensures var s := Exec(Start(capacity, callers), es);
            && |s.accepted| == s.processedCount + InFlight(s.processor) + |s.msgChan|
            && s.offered == |s.accepted| + s.droppedCount
            && s.handed <= s.accepted
            && (s.unsubscriber.Drained? ==> s.handed == s.accepted && s.processedCount == |s.accepted|)
  {
    RunInv(Start(capacity, callers), es);
  }

  /** Nothing is accepted or handed over after the wait has returned, whoever still calls TryEnqueue. */
  lemma {:induction false} NothingAfterDrain(s: State, es: seq<Event>)
    requires Inv(s) && s.unsubscriber.Drained? && IsRun(s, es)
    ensures Exec(s, es).accepted == s.accepted && Exec(s, es).handed == s.handed
    ensures Exec(s, es).unsubscriber.Drained?
    decreases |es|
  {
    if es == [] {
    } else {
      StepInv(s, es[0]);
      NothingAfterDrain(Do(s, es[0]), es[1..]);
    }
  }

  /** The steps that end a subscription: Unsubscribe, a failed attempt, Close or a failed restore. */
  predicate Stops(e: Event) { e.UnsubscribeStores? || e.AttemptStores? || e.ClientDeactivates? }

  /** Once Unsubscribe has closed the channel, the steps still open to the processing goroutine and the
      wait, taken in order. */
  function NextToDrain(s: State): (e: Event)
    requires Inv(s) && s.unsubscriber.Waiting?
    ensures Enabled(s, e)
  {
    match s.processor
    case InCallback(_) => CallbackReturns
    case Counting(_) => CountProcessed
    case Receiving => if s.msgChan == [] then ProcessorEnds else Receive
    case Gone => WaitReturns
  }

  /** How many of them are left. */
  function StepsToDrain(s: State): (n: nat)
  {
    3 * |s.msgChan| +
    match s.processor
    case InCallback(_) => 4
    case Counting(_) => 3
    case Receiving => 2
    case Gone => 1
  }

  /** So Unsubscribe's wait cannot hang while callbacks return: from every state in which it waits, a bounded
      number of steps of the processing goroutine ends it, with nothing accepted left over. */
  lemma {:induction false} DrainEnds(s: State) returns (es: seq<Event>)
    requires Inv(s) && s.unsubscriber.Waiting?
    ensures |es| == StepsToDrain(s) && IsRun(s, es) && Exec(s, es).unsubscriber.Drained?
    ensures Exec(s, es).handed == Exec(s, es).accepted == s.accepted
    decreases StepsToDrain(s)
  {
    var e := NextToDrain(s);
    StepInv(s, e);
    if e.WaitReturns? {
      es := [e];
      assert es[1..] == [];
    } else {
      var rest := DrainEnds(Do(s, e));
      es := [e] + rest;
      assert es[1..] == rest;
    }
  }
}
