/** The client's receive loop (client/client.go): it takes the messages of one connection in turn and
    offers each MSG to the subscriptions on the client's list, interleaved with everything the
    subscriptions do on their own and with changes of the list. */
module Dispatch {
  import opened Bytes
  import opened Codec
  import opened Matching
  import opened Tables
  import S = Subscription

  /** A subscription ever made. Its histories number the incoming messages: `since` the first one taken
      after it was listed, `tried` those offered to the open channel, `from` those that entered it. */
  datatype Entry = Entry(pattern: Str, since: nat, queue: S.State, tried: seq<nat>, from: seq<nat>)

  /** Where the loop over the list is: about to look at an entry, about to load `active` in TryEnqueue,
      about to send. The client's lock is held unless it is idle. */
  datatype Task = Idle | Examining(next: nat) | Calling(next: nat) | Sending(next: nat)

  /** `incoming` is what the connection delivers, `listed` the client's list as indices into `entries`. */
  datatype State = State(incoming: seq<Message>, taken: nat, task: Task, listed: seq<nat>, entries: seq<Entry>)

  function Start(incoming: seq<Message>): (s: State)
  {
    State(incoming, 0, Idle, [], [])
  }

  datatype Event =
    | Take
    | Examine
    | LoadActive
    | TrySend
    | Finish
    | Own(x: nat, e: S.Event)            // the processing goroutine, Unsubscribe, Close
    | Add(pattern: Str, capacity: nat)
    | Remove(i: nat)

  function NoteOf(m: Message): (n: S.Note) { S.Note(m.subject, m.payload) }

  predicate Relevant(pattern: Str, m: Message) { m.command == CMD_MSG && ClientMatches(pattern, m.subject) }

  /** The message being dispatched. */
  function Now(s: State): (m: Message)
    requires 0 < s.taken <= |s.incoming|
  {
    s.incoming[s.taken - 1]
  }

  predicate Shape(s: State)
  {
    && s.taken <= |s.incoming|
    && (forall j :: 0 <= j < |s.listed| ==> s.listed[j] < |s.entries|)
    && (!s.task.Idle? ==> 0 < s.taken && s.task.next <= |s.listed|)
    && (s.task.Calling? || s.task.Sending? ==> s.task.next < |s.listed|)
  }

  predicate Enabled(s: State, e: Event)
    requires Shape(s)
  {
    match e
    case Take => s.task.Idle? && s.taken < |s.incoming|
    case Examine => s.task.Examining? && s.task.next < |s.listed|
    case LoadActive =>
      s.task.Calling? && S.Enabled(s.entries[s.listed[s.task.next]].queue, S.LoadActive(0, NoteOf(Now(s))))
    case TrySend => s.task.Sending? && S.Enabled(s.entries[s.listed[s.task.next]].queue, S.TrySend(0))
    case Finish => s.task.Examining? && s.task.next == |s.listed|
    case Own(x, qe) => x < |s.entries| && !qe.LoadActive? && !qe.TrySend? && S.Enabled(s.entries[x].queue, qe)
    case Add(_, _) => s.task.Idle?
    case Remove(i) => s.task.Idle? && i < |s.listed|
  }

  /** TryEnqueue's select, with the number k of the message it offers. */
  function Offer(e: Entry, k: nat): (e': Entry)
    requires S.Enabled(e.queue, S.TrySend(0))
  {
    var queue := S.Do(e.queue, S.TrySend(0));
    e.(queue := queue,
       tried := if queue.offered > e.queue.offered then e.tried + [k] else e.tried,
       from := if |queue.accepted| > |e.queue.accepted| then e.from + [k] else e.from)
  }

  function NewEntry(pattern: Str, capacity: nat, since: nat): (e: Entry)
  {
    Entry(pattern, since, S.Start(capacity, 1), [], [])
  }

  function Do(s: State, e: Event): (s': State)
    requires Shape(s) && Enabled(s, e)
  {
    match e
    case Take =>
      var m := s.incoming[s.taken];
      s.(taken := s.taken + 1, task := if m.command == CMD_MSG then Examining(0) else Idle)
    case Examine =>
      var n := s.task.next;
      var entry := s.entries[s.listed[n]];
      s.(task := if entry.queue.active && ClientMatches(entry.pattern, Now(s).subject) then Calling(n)
                 else Examining(n + 1))
    case LoadActive =>
      var n := s.task.next;
      var x := s.listed[n];
      var queue := S.Do(s.entries[x].queue, S.LoadActive(0, NoteOf(Now(s))));
      s.(task := if s.entries[x].queue.active then Sending(n) else Examining(n + 1),
         entries := s.entries[x := s.entries[x].(queue := queue)])
    case TrySend =>
      var x := s.listed[s.task.next];
      s.(task := Examining(s.task.next + 1), entries := s.entries[x := Offer(s.entries[x], s.taken - 1)])
    case Finish => s.(task := Idle)
    case Own(x, qe) => s.(entries := s.entries[x := s.entries[x].(queue := S.Do(s.entries[x].queue, qe))])
    case Add(pattern, capacity) =>
      s.(listed := s.listed + [|s.entries|],
         entries := s.entries + [NewEntry(pattern, capacity, s.taken)])
    case Remove(i) => s.(listed := s.listed[..i] + s.listed[i + 1..])
  }

  lemma DoKeepsShape(s: State, e: Event)
    requires Shape(s) && Enabled(s, e)
    ensures Shape(Do(s, e)) && Do(s, e).incoming == s.incoming
  {
  }

  predicate IsRun(s: State, es: seq<Event>)
    requires Shape(s)
    decreases |es|
  {
    es == [] || (Enabled(s, es[0]) && (DoKeepsShape(s, es[0]); IsRun(Do(s, es[0]), es[1..])))
  }

  function Exec(s: State, es: seq<Event>): (s': State)
    requires Shape(s) && IsRun(s, es)
    ensures Shape(s') && s'.incoming == s.incoming
    decreases |es|
  {
    if es == [] then s else DoKeepsShape(s, es[0]); Exec(Do(s, es[0]), es[1..])
  }

  // ---------------------------------------------------------------- one subscription's histories

  /** The numbers of the messages from `since` up to `end` that a subscription should get, in order. */
  function Wanted(incoming: seq<Message>, pattern: Str, since: nat, end: nat): (ks: seq<nat>)
    requires end <= |incoming|
  {
    if end <= since then []
    else
      Wanted(incoming, pattern, since, end - 1) + if Relevant(pattern, incoming[end - 1]) then [end - 1] else []
  }

  lemma {:induction false} WantedIff(incoming: seq<Message>, pattern: Str, since: nat, end: nat, k: nat)
    requires end <= |incoming|
    ensures k in Wanted(incoming, pattern, since, end) <==> since <= k < end && Relevant(pattern, incoming[k])
    decreases end
  {
    if end <= since {
    } else {
      WantedIff(incoming, pattern, since, end - 1, k);
    }
  }

  predicate Rising(ks: seq<nat>, bound: nat)
  {
    && (forall i, j :: 0 <= i < j < |ks| ==> ks[i] < ks[j])
    && (forall i :: 0 <= i < |ks| ==> ks[i] < bound)
  }

  /** Each accepted note is the relevant message its number says. */
  predicate Traced(incoming: seq<Message>, pattern: Str, from: seq<nat>, accepted: seq<S.Note>)
  {
    && |from| == |accepted|
    && (forall j :: 0 <= j < |from| ==>
          from[j] < |incoming| && Relevant(pattern, incoming[from[j]]) && accepted[j] == NoteOf(incoming[from[j]]))
  }

  /** What holds of an entry that has been offered the messages up to `end`; `listed` while it is listed. */
  predicate HistoryOk(incoming: seq<Message>, e: Entry, end: nat, listed: bool)
    requires end <= |incoming|
  {
    && S.Inv(e.queue)
    && e.since <= end
    && Traced(incoming, e.pattern, e.from, e.queue.accepted)
    && Rising(e.from, end) && Rising(e.tried, end)
    && (forall k :: k in e.from ==> k in e.tried)
    && |e.tried| == e.queue.offered
    && (e.queue.droppedCount == 0 ==> e.from == e.tried)
    && (listed && e.queue.active ==> e.tried == Wanted(incoming, e.pattern, e.since, end))
  }

  lemma NewHistory(incoming: seq<Message>, pattern: Str, capacity: nat, since: nat, listed: bool)
    requires since <= |incoming|
    ensures HistoryOk(incoming, NewEntry(pattern, capacity, since), since, listed)
  {
  }

  /** A message that is not offered passes by. */
  lemma PassHistory(incoming: seq<Message>, e: Entry, end: nat, listed: bool)
    requires end < |incoming| && HistoryOk(incoming, e, end, listed)
    requires !listed || !e.queue.active || !Relevant(e.pattern, incoming[end])
    ensures HistoryOk(incoming, e, end + 1, listed)
  {
  }

  lemma RisingAppend(ks: seq<nat>, end: nat)
    requires Rising(ks, end)
    ensures Rising(ks + [end], end + 1)
  {
  }

  lemma TracedAppend(incoming: seq<Message>, pattern: Str, from: seq<nat>, accepted: seq<S.Note>, k: nat)
    requires Traced(incoming, pattern, from, accepted) && k < |incoming| && Relevant(pattern, incoming[k])
    ensures Traced(incoming, pattern, from + [k], accepted + [NoteOf(incoming[k])])
  {
  }

  /** Message `end` is added to the histories: tried, and accepted or dropped. */
  lemma TriedHistory(incoming: seq<Message>, e: Entry, end: nat, queue: S.State, enters: bool)
    requires end < |incoming| && HistoryOk(incoming, e, end, true) && Relevant(e.pattern, incoming[end])
    requires S.Inv(queue) && queue.offered == e.queue.offered + 1 && queue.active == e.queue.active
    requires enters ==> queue.accepted == e.queue.accepted + [NoteOf(incoming[end])]
    requires enters ==> queue.droppedCount == e.queue.droppedCount
    requires !enters ==> queue.accepted == e.queue.accepted && queue.droppedCount == e.queue.droppedCount + 1
    ensures var from := if enters then e.from + [end] else e.from;
            HistoryOk(incoming, e.(queue := queue, tried := e.tried + [end], from := from), end + 1, true)
  {
    RisingAppend(e.tried, end);
    RisingAppend(e.from, end);
    TracedAppend(incoming, e.pattern, e.from, e.queue.accepted, end);
  }

  /** A relevant message is offered. */
  lemma OfferHistory(incoming: seq<Message>, e: Entry, end: nat)
    requires end < |incoming| && HistoryOk(incoming, e, end, true) && Relevant(e.pattern, incoming[end])
    requires e.queue.enqueuers == [S.SawActive(NoteOf(incoming[end]))]
    ensures HistoryOk(incoming, Offer(e, end), end + 1, true)
    ensures Offer(e, end).queue.enqueuers == [S.Outside]
  {
    var queue := S.Do(e.queue, S.TrySend(0));
    S.StepInv(e.queue, S.TrySend(0));
    if !e.queue.chanClosed {
      TriedHistory(incoming, e, end, queue, |e.queue.msgChan| < e.queue.capacity);
    }
  }

  /** Steps of the subscription itself leave its histories alone. */
  lemma OwnHistory(incoming: seq<Message>, e: Entry, end: nat, listed: bool, qe: S.Event)
    requires end <= |incoming| && HistoryOk(incoming, e, end, listed) && S.Enabled(e.queue, qe) && !qe.TrySend?
    ensures HistoryOk(incoming, e.(queue := S.Do(e.queue, qe)), end, listed)
  {
    S.StepInv(e.queue, qe);
  }

  // ---------------------------------------------------------------- the loop

  /** Entry x is on the list and the loop has still to deal with it. */
  predicate Ahead(s: State, x: nat)
    requires Shape(s)
  {
    !s.task.Idle? && x in s.listed[s.task.next..]
  }

  /** How many messages entry x has been offered. */
  function Seen(s: State, x: nat): (n: nat)
    requires Shape(s)
    ensures n <= |s.incoming|
  {
    if Ahead(s, x) then s.taken - 1 else s.taken
  }

  predicate EntryOk(s: State, x: nat)
    requires Shape(s) && x < |s.entries|
  {
    && HistoryOk(s.incoming, s.entries[x], Seen(s, x), x in s.listed)
    && s.entries[x].queue.enqueuers ==
       [if s.task.Sending? && s.listed[s.task.next] == x then S.SawActive(NoteOf(Now(s))) else S.Outside]
  }

  predicate LoopOk(s: State)
    requires Shape(s)
  {
    && NoDup(s.listed)
    && (!s.task.Idle? ==> Now(s).command == CMD_MSG)
    && (s.task.Calling? || s.task.Sending? ==> Relevant(s.entries[s.listed[s.task.next]].pattern, Now(s)))
  }

  predicate Inv(s: State)
  {
    Shape(s) && LoopOk(s) && forall x :: 0 <= x < |s.entries| ==> EntryOk(s, x)
  }

  lemma NoDupRemove<T>(s: seq<T>, i: nat)
    requires NoDup(s) && i < |s|
    ensures NoDup(s[..i] + s[i + 1..])
  {
  }

  /** Moving on past one entry changes what is ahead for that entry only. */
  lemma AheadAfter(listed: seq<nat>, next: nat, x: nat)
    requires NoDup(listed) && next < |listed|
    ensures x in listed[next + 1..] <==> x in listed[next..] && x != listed[next]
  {
    assert listed[next..] == [listed[next]] + listed[next + 1..];
  }

  lemma TakeEntry(s: State, x: nat)
    requires Inv(s) && Enabled(s, Take) && x < |s.entries|
    ensures EntryOk(Do(s, Take), x)
  {
    var s' := Do(s, Take);
    assert EntryOk(s, x);
    if s'.task.Examining? && x in s.listed {
      assert Ahead(s', x);
    } else {
      PassHistory(s.incoming, s.entries[x], s.taken, x in s.listed);
    }
  }

  lemma ExamineEntry(s: State, x: nat)
    requires Inv(s) && Enabled(s, Examine) && x < |s.entries|
    requires x in s.listed[s.task.next + 1..] <==> x in s.listed[s.task.next..] && x != s.listed[s.task.next]
    ensures EntryOk(Do(s, Examine), x)
  {
    var s' := Do(s, Examine);
    assert EntryOk(s, x);
    if x == s.listed[s.task.next] {
      assert Seen(s, x) == s.taken - 1;
      if s'.task.Examining? {
        PassHistory(s.incoming, s.entries[x], s.taken - 1, true);
      }
    } else {
      assert Seen(s', x) == Seen(s, x);
    }
  }

  lemma LoadEntry(s: State, x: nat)
    requires Inv(s) && Enabled(s, LoadActive) && x < |s.entries|
    requires x in s.listed[s.task.next + 1..] <==> x in s.listed[s.task.next..] && x != s.listed[s.task.next]
    ensures EntryOk(Do(s, LoadActive), x)
  {
    var s' := Do(s, LoadActive);
    assert EntryOk(s, x);
    if x == s.listed[s.task.next] {
      assert Seen(s, x) == s.taken - 1;
      var load := S.LoadActive(0, NoteOf(Now(s)));
      OwnHistory(s.incoming, s.entries[x], s.taken - 1, true, load);
      if !s.entries[x].queue.active {
        PassHistory(s.incoming, s'.entries[x], s.taken - 1, true);
      }
    } else {
      assert Seen(s', x) == Seen(s, x) && s'.entries[x] == s.entries[x];
    }
  }

  /** The entry that is offered the message. */
  lemma OfferEntry(s: State, x: nat)
    requires Inv(s) && Enabled(s, TrySend) && x == s.listed[s.task.next] && x !in s.listed[s.task.next + 1..]
    ensures EntryOk(Do(s, TrySend), x)
  {
    var s', k := Do(s, TrySend), s.taken - 1;
    assert EntryOk(s, x);
    assert Seen(s, x) == k && Seen(s', x) == k + 1 && Now(s) == s.incoming[k];
    OfferHistory(s.incoming, s.entries[x], k);
  }

  lemma SendEntry(s: State, x: nat)
    requires Inv(s) && Enabled(s, TrySend) && x < |s.entries|
    requires x in s.listed[s.task.next + 1..] <==> x in s.listed[s.task.next..] && x != s.listed[s.task.next]
    ensures EntryOk(Do(s, TrySend), x)
  {
    if x == s.listed[s.task.next] {
      OfferEntry(s, x);
    } else {
      assert EntryOk(s, x);
      assert Seen(Do(s, TrySend), x) == Seen(s, x) && Do(s, TrySend).entries[x] == s.entries[x];
    }
  }

  lemma OwnEntry(s: State, y: nat, qe: S.Event, x: nat)
    requires Inv(s) && Enabled(s, Own(y, qe)) && x < |s.entries|
    ensures EntryOk(Do(s, Own(y, qe)), x)
  {
    assert EntryOk(s, x);
    if x == y {
      OwnHistory(s.incoming, s.entries[x], Seen(s, x), x in s.listed, qe);
    }
  }

  lemma ListEntry(s: State, e: Event, x: nat)
    requires Inv(s) && Enabled(s, e) && x < |s.entries| && (e.Finish? || e.Add? || e.Remove?)
    ensures Shape(Do(s, e)) && EntryOk(Do(s, e), x)
  {
    DoKeepsShape(s, e);
    assert EntryOk(s, x);
  }

  lemma StepEntry(s: State, e: Event, x: nat)
    requires Inv(s) && Enabled(s, e) && x < |s.entries|
    ensures Shape(Do(s, e)) && EntryOk(Do(s, e), x)
  {
    match e
    case Take => TakeEntry(s, x);
    case Examine => AheadAfter(s.listed, s.task.next, x); ExamineEntry(s, x);
    case LoadActive => AheadAfter(s.listed, s.task.next, x); LoadEntry(s, x);
    case TrySend => AheadAfter(s.listed, s.task.next, x); SendEntry(s, x);
    case Own(y, qe) => OwnEntry(s, y, qe, x);
    case Finish => ListEntry(s, e, x);
    case Add(_, _) => ListEntry(s, e, x);
    case Remove(_) => ListEntry(s, e, x);
  }

  lemma StepLoop(s: State, e: Event)
    requires Shape(s) && LoopOk(s) && Enabled(s, e)
    ensures Shape(Do(s, e)) && LoopOk(Do(s, e))
  {
    DoKeepsShape(s, e);
    if e.Remove? {
      NoDupRemove(s.listed, e.i);
    }
  }

  /** The one new entry a step can make. */
  lemma AddEntry(s: State, pattern: Str, capacity: nat)
    requires Inv(s) && Enabled(s, Add(pattern, capacity))
    ensures Shape(Do(s, Add(pattern, capacity))) && EntryOk(Do(s, Add(pattern, capacity)), |s.entries|)
  {
    var s', x := Do(s, Add(pattern, capacity)), |s.entries|;
    DoKeepsShape(s, Add(pattern, capacity));
    assert s'.entries[x] == NewEntry(pattern, capacity, s.taken) && Seen(s', x) == s.taken;
    NewHistory(s.incoming, pattern, capacity, s.taken, x in s'.listed);
  }

  lemma StepInv(s: State, e: Event)
    requires Inv(s) && Enabled(s, e)
    ensures Inv(Do(s, e))
  {
    var s' := Do(s, e);
    StepLoop(s, e);
    if e.Add? {
      AddEntry(s, e.pattern, e.capacity);
    }
    assert |s'.entries| == |s.entries| + if e.Add? then 1 else 0;
    forall x | 0 <= x < |s.entries|
      ensures EntryOk(s', x)
    {
      StepEntry(s, e, x);
    }
  }

  lemma {:induction false} RunInv(s: State, es: seq<Event>)
    requires Inv(s) && IsRun(s, es)
    ensures Inv(Exec(s, es))
    decreases |es|
  {
    if es == [] {
    } else {
      StepInv(s, es[0]);
      RunInv(Do(s, es[0]), es[1..]);
    }
  }

  /** The loop's own next step. */
  function NextOfLoop(s: State): (e: Event)
    requires Shape(s) && !s.task.Idle?
  {
    match s.task
    case Examining(n) => if n < |s.listed| then Examine else Finish
    case Calling(_) => LoadActive
    case Sending(_) => TrySend
  }

  lemma LoopIsEnabled(s: State)
    requires Inv(s) && !s.task.Idle?
    ensures Enabled(s, NextOfLoop(s))
  {
    if !s.task.Examining? && s.task.next < |s.listed| {
      assert EntryOk(s, s.listed[s.task.next]);
    }
  }

  /** A bound on the steps the loop has still to take. */
  function StepsOfLoop(s: State): (n: nat)
    requires Shape(s)
  {
    match s.task
    case Idle => 0
    case Examining(next) => 3 * (|s.listed| - next) + 1
    case Calling(next) => 3 * (|s.listed| - next)
    case Sending(next) => 3 * (|s.listed| - next) - 1
  }

  /** Dispatching never blocks, however slow the callbacks are: from every state the loop finishes with its
      message by a bounded number of steps of its own. */
  lemma {:induction false} DispatchEnds(s: State) returns (es: seq<Event>)
    requires Inv(s)
    ensures |es| <= StepsOfLoop(s) && IsRun(s, es)
    ensures Exec(s, es).task.Idle? && Exec(s, es).taken == s.taken
    decreases StepsOfLoop(s)
  {
    if s.task.Idle? {
      es := [];
    } else {
      var e := NextOfLoop(s);
      LoopIsEnabled(s);
      StepInv(s, e);
      var rest := DispatchEnds(Do(s, e));
      es := [e] + rest;
      assert es[1..] == rest;
    }
  }

  // ---------------------------------------------------------------- drops and the list

  /** A step offers a message to entry x while its open channel is full. */
  predicate OverflowsAt(s: State, e: Event, x: nat)
    requires Shape(s) && Enabled(s, e)
  {
    e.TrySend? && s.listed[s.task.next] == x && S.Overflows(s.entries[x].queue, S.TrySend(0))
  }

  /** How often a run does so. */
  function Overflowed(s: State, es: seq<Event>, x: nat): (n: nat)
    requires Shape(s) && IsRun(s, es)
    decreases |es|
  {
    if es == [] then 0
    else
      DoKeepsShape(s, es[0]);
      (if OverflowsAt(s, es[0], x) then 1 else 0) + Overflowed(Do(s, es[0]), es[1..], x)
  }

  function Dropped(s: State, x: nat): (n: nat) { if x < |s.entries| then s.entries[x].queue.droppedCount else 0 }

  lemma StepDrops(s: State, e: Event, x: nat)
    requires Inv(s) && Enabled(s, e)
    ensures Dropped(Do(s, e), x) == Dropped(s, x) + if OverflowsAt(s, e, x) then 1 else 0
  {
    if x < |s.entries| {
      assert EntryOk(s, x);
    }
  }

  lemma {:induction false} RunDrops(s: State, es: seq<Event>, x: nat)
    requires Inv(s) && IsRun(s, es)
    ensures Dropped(Exec(s, es), x) == Dropped(s, x) + Overflowed(s, es, x)
    decreases |es|
  {
    if es == [] {
    } else {
      StepInv(s, es[0]);
      StepDrops(s, es[0], x);
      RunDrops(Do(s, es[0]), es[1..], x);
    }
  }

  /** The entries a run takes off the list. */
  function RemovedBy(s: State, es: seq<Event>): (xs: set<nat>)
    requires Shape(s) && IsRun(s, es)
    decreases |es|
  {
    if es == [] then {}
    else
      DoKeepsShape(s, es[0]);
      (if es[0].Remove? then {s.listed[es[0].i]} else {}) + RemovedBy(Do(s, es[0]), es[1..])
  }

  lemma StepList(s: State, e: Event, x: nat)
    requires Inv(s) && Enabled(s, e)
    ensures x in Do(s, e).listed <==>
              || (x in s.listed && !(e.Remove? && x == s.listed[e.i]))
              || |s.entries| <= x < |Do(s, e).entries|
    ensures |s.entries| <= |Do(s, e).entries|
  {
    if e.Remove? {
      assert s.listed == s.listed[..e.i] + [s.listed[e.i]] + s.listed[e.i + 1..];
    }
  }

  /** A subscription is listed from its making until it is removed. */
  lemma {:induction false} ListedUntilRemoved(s: State, es: seq<Event>, x: nat)
    requires Inv(s) && IsRun(s, es)
    ensures |s.entries| <= |Exec(s, es).entries|
    ensures x in Exec(s, es).listed <==>
              (x in s.listed || |s.entries| <= x < |Exec(s, es).entries|) && x !in RemovedBy(s, es)
    decreases |es|
  {
    if es == [] {
    } else {
      StepInv(s, es[0]);
      StepList(s, es[0], x);
      ListedUntilRemoved(Do(s, es[0]), es[1..], x);
    }
  }

  /** The run contains a step that ends entry x. */
  predicate Stopped(es: seq<Event>, x: nat)
  {
    exists i :: 0 <= i < |es| && es[i].Own? && es[i].x == x && S.Stops(es[i].e)
  }

  lemma StoppedSplit(es: seq<Event>, x: nat)
    requires es != []
    ensures Stopped(es, x) <==> (es[0].Own? && es[0].x == x && S.Stops(es[0].e)) || Stopped(es[1..], x)
  {
    if i :| 0 < i < |es| && es[i].Own? && es[i].x == x && S.Stops(es[i].e) {
      assert es[1..][i - 1] == es[i];
    }
  }

  predicate Live(s: State, x: nat) { x < |s.entries| ==> s.entries[x].queue.active }

  lemma StepActive(s: State, e: Event, x: nat)
    requires Shape(s) && Enabled(s, e)
    ensures Live(Do(s, e), x) <==> Live(s, x) && !(e.Own? && e.x == x && S.Stops(e.e))
  {
  }

  /** A subscription is active until a step ends it. */
  lemma {:induction false} ActiveUntilStopped(s: State, es: seq<Event>, x: nat)
    requires Shape(s) && IsRun(s, es)
    ensures Live(Exec(s, es), x) <==> Live(s, x) && !Stopped(es, x)
    decreases |es|
  {
    if es == [] {
    } else {
      DoKeepsShape(s, es[0]);
      StepActive(s, es[0], x);
      StoppedSplit(es, x);
      ActiveUntilStopped(Do(s, es[0]), es[1..], x);
    }
  }

  /** What entry x has got: callbacks in the order of acceptance, on relevant messages in the order they
      came, each at most once; and as long as x is listed and active, every relevant message since it was
      listed was accepted or counted as dropped, and with none dropped exactly those were accepted. */
  ghost predicate Dispatched(s: State, x: nat)
    requires Shape(s) && x < |s.entries|
  {
    var e := s.entries[x];
    && e.queue.handed <= e.queue.accepted
    && Traced(s.incoming, e.pattern, e.from, e.queue.accepted)
    && Rising(e.from, s.taken)
    && (s.task.Idle? && x in s.listed && e.queue.active ==>
          var wanted := Wanted(s.incoming, e.pattern, e.since, s.taken);
          && |wanted| == |e.queue.accepted| + e.queue.droppedCount
          && (e.queue.droppedCount == 0 ==> e.from == wanted))
  }

  /** In every run of one connection's receive loop; and the messages counted as dropped are those offered
      while the channel was full, and a subscription is listed and active unless the run removed or ended it. */
  lemma DispatchIsExact(incoming: seq<Message>, es: seq<Event>, x: nat)
    requires IsRun(Start(incoming), es) && x < |Exec(Start(incoming), es).entries|
    ensures Dispatched(Exec(Start(incoming), es), x)
    ensures Exec(Start(incoming), es).entries[x].queue.droppedCount == Overflowed(Start(incoming), es, x)
    ensures x in Exec(Start(incoming), es).listed <==> x !in RemovedBy(Start(incoming), es)
    ensures Exec(Start(incoming), es).entries[x].queue.active <==> !Stopped(es, x)
  {
    RunInv(Start(incoming), es);
    RunDrops(Start(incoming), es, x);
    ListedUntilRemoved(Start(incoming), es, x);
    ActiveUntilStopped(Start(incoming), es, x);
    assert EntryOk(Exec(Start(incoming), es), x);
  }
}
