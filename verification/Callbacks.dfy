/** From the publisher to the callback: a run of the server, and a run of the client at the other end of
    session q's connection. The client takes what it can decode of the bytes q's write loop wrote. */
module Callbacks {
  import opened Bytes
  import opened Codec
  import opened Matching
  import Broker
  import Completeness
  import D = Dispatch
  import Delivery
  import Fanout
  import Refusals
  import SQ = SendQueue
  import Subscription

  /** Each callback of entry e has a frame of session q behind it. */
  predicate Linked(b: Broker.State, q: nat, e: D.Entry)
  {
    && q < |b.queues| && |e.queue.handed| <= |e.from|
    && (forall j :: 0 <= j < |e.from| ==> e.from[j] < |b.queues[q].accepted|)
  }

  /** For each callback the publisher and the number of the publisher's message. */
  function Origins(b: Broker.State, q: nat, e: D.Entry): (os: seq<(nat, nat)>)
    requires Linked(b, q, e)
  {
    seq(|e.queue.handed|, j requires 0 <= j < |e.queue.handed| =>
      var p := b.queues[q].accepted[e.from[j]];
      (p.sender, p.serial))
  }

  ghost predicate CallExplained(b: Broker.State, q: nat, pattern: Str, note: Subscription.Note, o: (nat, nat))
  {
    && ClientMatches(pattern, note.subject)
    && exists held ::
         Delivery.FromPublish(b, q, Message(CMD_MSG, note.subject, note.data), o.0, o.1, held)
  }

  /** The callbacks ran on publishes whose subject the subscription's pattern accepts, subject and payload
      unchanged, and session q held a pattern for each; one publisher's in the order it sent them, each at
      most once. */
  ghost predicate Explained(b: Broker.State, q: nat, e: D.Entry)
    requires Linked(b, q, e)
  {
    var os := Origins(b, q, e);
    && (forall j :: 0 <= j < |os| ==> CallExplained(b, q, e.pattern, e.queue.handed[j], os[j]))
    && (forall i, j :: 0 <= i < j < |os| && os[i].0 == os[j].0 ==> os[i].1 < os[j].1)
  }

  lemma DispatchedIsExplained(b: Broker.State, q: nat, c: D.State, x: nat)
    requires Broker.Shape(b) && q < |b.queues| && Delivery.Delivers(b, q)
    requires D.Shape(c) && c.incoming == Delivery.Decoded(b, q) && x < |c.entries| && D.Dispatched(c, x)
    ensures Linked(b, q, c.entries[x]) && Explained(b, q, c.entries[x])
  {
    var e := c.entries[x];
    var os := Origins(b, q, e);
    forall j | 0 <= j < |os|
      ensures CallExplained(b, q, e.pattern, e.queue.handed[j], os[j])
    {
      Delivery.FrameFromPublish(b, q, e.from[j]);
      assert e.queue.handed[j] == e.queue.accepted[j];
    }
  }

  /** For every run of the server, every run of the client on what session q sent it and every
      subscription of that client. */
  lemma PublisherToCallback(incoming: seq<Str>, limit: int, capacity: nat, es: seq<Broker.Event>, b: Broker.State,
                            q: nat, cs: seq<D.Event>, c: D.State, x: nat)
    requires Broker.IsRun(Broker.Start(incoming, limit, capacity), es)
    requires b == Broker.Exec(Broker.Start(incoming, limit, capacity), es) && q < |b.queues|
    requires D.IsRun(D.Start(Delivery.Decoded(b, q)), cs)
    requires c == D.Exec(D.Start(Delivery.Decoded(b, q)), cs) && x < |c.entries|
    ensures Linked(b, q, c.entries[x]) && Explained(b, q, c.entries[x])
  {
    Delivery.EndToEnd(incoming, limit, capacity, es, q);
    D.DispatchIsExact(Delivery.Decoded(b, q), cs, x);
    DispatchedIsExplained(b, q, c, x);
  }

  /** The client has taken everything; the subscription is still listed and active, dropped nothing, and
      its channel is empty. */
  predicate CaughtUp(c: D.State, x: nat)
    requires D.Shape(c) && x < |c.entries|
  {
    var e := c.entries[x];
    && c.task.Idle? && c.taken == |c.incoming|
    && x in c.listed && e.queue.active && e.queue.droppedCount == 0
    && e.queue.handed == e.queue.accepted
  }

  /** Frame i is called back. */
  lemma FrameCalledBack(b: Broker.State, q: nat, c: D.State, x: nat, i: nat)
    requires Broker.Shape(b) && q < |b.queues| && Delivery.Delivers(b, q)
    requires D.Shape(c) && c.incoming == Delivery.Decoded(b, q) && x < |c.entries| && D.Dispatched(c, x)
    requires CaughtUp(c, x) && c.entries[x].since <= i < |c.incoming| && D.Relevant(c.entries[x].pattern, c.incoming[i])
    requires Linked(b, q, c.entries[x])
    ensures var p := b.queues[q].accepted[i]; (p.sender, p.serial) in Origins(b, q, c.entries[x])
  {
    var e := c.entries[x];
    D.WantedIff(c.incoming, e.pattern, e.since, c.taken, i);
    var j :| 0 <= j < |e.from| && e.from[j] == i;
    var p := b.queues[q].accepted[i];
    assert Origins(b, q, e)[j] == (p.sender, p.serial);
  }

  /** None of the first n frames of session q is about publish k of reader r. */
  predicate NotAmong(b: Broker.State, q: nat, n: nat, r: nat, k: nat)
    requires q < |b.queues|
  {
    forall i :: 0 <= i < n && i < |b.queues[q].accepted| ==>
      b.queues[q].accepted[i].sender != r || b.queues[q].accepted[i].serial != k
  }

  /** Publish k of reader r is finished, was due to session q and not refused, and q's write loop has
      handed over all that q accepted. */
  ghost predicate Sent(b: Broker.State, q: nat, r: nat, k: nat)
    requires Broker.Shape(b) && q < |b.queues|
  {
    && r < |b.readers| && Completeness.Finished(b, r, k)
    && k < |Broker.Inputs(b, r)| && Broker.Inputs(b, r)[k].command == CMD_PUB
    && q in Completeness.Due(b, r, k) && (q, r, k) !in b.refused
    && b.queues[q].handed == b.queues[q].accepted
  }

  lemma SentIsDecoded(b: Broker.State, q: nat, r: nat, k: nat) returns (i: nat)
    requires Broker.Shape(b) && q < |b.queues|
    requires Delivery.Delivers(b, q) && Sent(b, q, r, k) && Completeness.Concluded(b, r, k)
    ensures i < |Delivery.Decoded(b, q)| && i < |b.queues[q].accepted|
    ensures b.queues[q].accepted[i].sender == r && b.queues[q].accepted[i].serial == k
    ensures var m := Broker.Inputs(b, r)[k]; Delivery.Decoded(b, q)[i] == Message(CMD_MSG, m.subject, m.payload)
  {
    var accepted := b.queues[q].accepted;
    assert Completeness.AcceptedAt(b, q, r, k);
    i :| 0 <= i < |accepted| && accepted[i].sender == r && accepted[i].serial == k;
    assert Delivery.PacketOk(b, q, accepted[i]);
  }

  /** Subscription e should call back publish k of reader r: its pattern accepts the subject, and it was
      listed before the publish's frame was taken. */
  ghost predicate Owed(b: Broker.State, q: nat, e: D.Entry, r: nat, k: nat)
    requires Broker.Shape(b) && q < |b.queues|
  {
    && Sent(b, q, r, k) && NotAmong(b, q, e.since, r, k)
    && ClientMatches(e.pattern, Broker.Inputs(b, r)[k].subject)
  }

  ghost predicate AllCalledBack(b: Broker.State, q: nat, e: D.Entry)
    requires Broker.Shape(b) && Linked(b, q, e)
  {
    forall r: nat, k: nat :: Owed(b, q, e, r, k) ==> (r, k) in Origins(b, q, e)
  }

  lemma OwedIsCalledBack(b: Broker.State, q: nat, c: D.State, x: nat, r: nat, k: nat)
    requires Broker.Shape(b) && q < |b.queues| && Delivery.Delivers(b, q)
    requires D.Shape(c) && c.incoming == Delivery.Decoded(b, q) && x < |c.entries| && D.Dispatched(c, x)
    requires CaughtUp(c, x) && Linked(b, q, c.entries[x])
    requires Owed(b, q, c.entries[x], r, k) && Completeness.Concluded(b, r, k)
    ensures (r, k) in Origins(b, q, c.entries[x])
  {
    var i := SentIsDecoded(b, q, r, k);
    FrameCalledBack(b, q, c, x, i);
  }

  /** In every run, a subscription that has caught up has called back every publish it should - exactly
      once each, since `Explained` orders the origins strictly. */
  lemma EveryPublishCalledBack(incoming: seq<Str>, limit: int, capacity: nat, es: seq<Broker.Event>, b: Broker.State,
                               q: nat, cs: seq<D.Event>, c: D.State, x: nat)
    requires Broker.IsRun(Broker.Start(incoming, limit, capacity), es)
    requires b == Broker.Exec(Broker.Start(incoming, limit, capacity), es) && q < |b.queues|
    requires D.IsRun(D.Start(Delivery.Decoded(b, q)), cs)
    requires c == D.Exec(D.Start(Delivery.Decoded(b, q)), cs) && x < |c.entries|
    ensures Linked(b, q, c.entries[x])
    ensures CaughtUp(c, x) ==> AllCalledBack(b, q, c.entries[x])
  {
    PublisherToCallback(incoming, limit, capacity, es, b, q, cs, c, x);
    if CaughtUp(c, x) {
      Delivery.EndToEnd(incoming, limit, capacity, es, q);
      D.DispatchIsExact(Delivery.Decoded(b, q), cs, x);
      forall r: nat, k: nat | Owed(b, q, c.entries[x], r, k)
        ensures (r, k) in Origins(b, q, c.entries[x])
      {
        Completeness.DeliveredOrRefused(incoming, limit, capacity, es, r, k);
        OwedIsCalledBack(b, q, c, x, r, k);
      }
    }
  }

  /** The whole way, from a client's SUB to its callback: session q's client has subscribed to p and is not inside
      a SUB or UNSUB when a publish with a matching subject is looked up; q stays open with room; the publisher's
      reader has finished and q's write loop has written everything out; the client's subscription to p was listed
      before the frame was taken, and is caught up. Then the publish is behind one of its callbacks. */
  lemma SubscribedIsCalledBack(incoming: seq<Str>, limit: int, capacity: nat, es1: seq<Broker.Event>, b1: Broker.State,
                               r: nat, order: seq<nat>, es2: seq<Broker.Event>, b: Broker.State,
                               q: nat, cs: seq<D.Event>, c: D.State, x: nat)
    requires Broker.IsRun(Broker.Start(incoming, limit, capacity), es1)
    requires b1 == Broker.Exec(Broker.Start(incoming, limit, capacity), es1)
    requires Broker.IsRun(b1, [Broker.Begin(r, order)] + es2) && b == Broker.Exec(b1, [Broker.Begin(r, order)] + es2)
    requires r < |incoming| && q < |incoming| && !b1.queues[q].closed && Fanout.Steady(b1, q)
    requires D.IsRun(D.Start(Delivery.Decoded(b, q)), cs)
    requires c == D.Exec(D.Start(Delivery.Decoded(b, q)), cs) && x < |c.entries|
    ensures Linked(b, q, c.entries[x])
    ensures var k, e := b1.readers[r].begun, c.entries[x];
            && k < |Broker.Inputs(b, r)| && Broker.Inputs(b, r)[k].command == CMD_PUB
            && b1.readers[q].begun <= |Broker.Inputs(b, q)|
            && Fanout.Subscribed(Broker.Inputs(b, q), b1.readers[q].begun, e.pattern)
            && Matches(e.pattern, Broker.Inputs(b, r)[k].subject)
            && SQ.SoundLimit(limit) && Refusals.RoomAllAlong(b1, [Broker.Begin(r, order)] + es2, q)
            && Completeness.Finished(b, r, k) && b.queues[q].handed == b.queues[q].accepted
            && NotAmong(b, q, e.since, r, k) && CaughtUp(c, x)
            ==> (r, k) in Origins(b, q, e)
  {
    var s0, rest := Broker.Start(incoming, limit, capacity), [Broker.Begin(r, order)] + es2;
    var k, e := b1.readers[r].begun, c.entries[x];
    Broker.RunJoin(s0, es1, rest);
    EveryPublishCalledBack(incoming, limit, capacity, es1 + rest, b, q, cs, c, x);
    if && k < |Broker.Inputs(b, r)| && Broker.Inputs(b, r)[k].command == CMD_PUB
       && b1.readers[q].begun <= |Broker.Inputs(b, q)|
       && Fanout.Subscribed(Broker.Inputs(b, q), b1.readers[q].begun, e.pattern)
       && Matches(e.pattern, Broker.Inputs(b, r)[k].subject)
       && SQ.SoundLimit(limit) && Refusals.RoomAllAlong(b1, rest, q)
       && Completeness.Finished(b, r, k) && b.queues[q].handed == b.queues[q].accepted
       && NotAmong(b, q, e.since, r, k) && CaughtUp(c, x)
    {
      Fanout.DueIffSubscribed(incoming, limit, capacity, es1, b1, r, order, es2, b, q);
      Refusals.RoomMeansNoRefusal(incoming, limit, capacity, es1, b1, rest, b, q, r, k);
      assert Owed(b, q, e, r, k);
    }
  }
}
