/** The client's table of subscriptions waiting for an OK (client/client.go), one operation per
    critical section of pendingSubsMu. */
module PendingAcks {
  import opened Bytes
  import opened Codec
  import opened Replies
  import opened Utf8

  type Channel = nat

  /** `pending` maps a subject to its ACK channel; `closes` records how often each channel was closed;
      channels below `next` have been made. */
  datatype Acks = Acks(pending: map<Str, Channel>, closes: multiset<Channel>, next: Channel)

  datatype Section =
    | HandleOk(text: Str)         // handleMessage, an OK arrives
    | ClearOld(subject: Str)      // before a retry of Subscribe
    | Register(subject: Str)      // Subscribe
    | Forget(subject: Str)        // timeout, cancellation or a failed write
    | Replace(subject: Str)       // sendSubWithAck
    | ClearAll                    // Close

  const NO_ACKS: Acks := Acks(map[], multiset{}, 0)

  /** strings.Contains. */
  predicate Contains(s: Str, part: Str)
  {
    part <= s || (s != [] && Contains(s[1..], part))
  }

  function TrimPrefix(s: Str, prefix: Str): (r: Str)
  {
    if prefix <= s then s[|prefix|..] else s
  }

  function AddClose(closes: multiset<Channel>, c: Channel): (r: multiset<Channel>) { closes[c := closes[c] + 1] }

  /** Closes the channel of an entry, without asking whether it is closed, and deletes the entry. */
  function CloseEntry(a: Acks, k: Str): (a': Acks)
  {
    if k !in a.pending then a
    else Acks(a.pending - {k}, AddClose(a.closes, a.pending[k]), a.next)
  }

  function Insert(a: Acks, k: Str): (a': Acks)
  {
    Acks(a.pending[k := a.next], a.closes, a.next + 1)
  }

  /** All pending channels closed once more. */
  function CloseAll(a: Acks): (a': Acks)
  {
    Acks(map[], a.closes + multiset(a.pending.Values), a.next)
  }

  /** What a critical section does when no guard ever fires. */
  function Apply(a: Acks, s: Section): (a': Acks)
  {
    match s
    case HandleOk(text) =>
      if text in a.pending then CloseEntry(a, text)
      else if Contains(text, SUBSCRIBED_TO) then CloseEntry(a, TrimPrefix(text, SUBSCRIBED_TO))
      else a
    case ClearOld(k) => CloseEntry(a, k)
    case Register(k) => Insert(a, k)
    case Forget(k) => a.(pending := a.pending - {k})
    case Replace(k) => Insert(CloseEntry(a, k), k)
    case ClearAll => CloseAll(a)
  }

  /** The channels of cs were closed once more, no other channel was. */
  ghost predicate ClosedOnce(closes: multiset<Channel>, closes': multiset<Channel>, cs: set<Channel>)
  {
    forall c: Channel :: closes'[c] == closes[c] + if c in cs then 1 else 0
  }

  /** The entry of k is gone and its channel was closed once; without one nothing happened. */
  ghost predicate Confirmed(a: Acks, a': Acks, k: Str)
  {
    && a'.pending == (map l | l in a.pending && l != k :: a.pending[l])
    && ClosedOnce(a.closes, a'.closes, if k in a.pending then {a.pending[k]} else {})
    && a'.next == a.next
  }

  /** k is pending on the next new channel, the other entries are unchanged. */
  ghost predicate Registered(a: Acks, a': Acks, k: Str)
  {
    && a'.pending == (map l | l in a.pending.Keys + {k} :: if l == k then a.next else a.pending[l])
    && a'.next == a.next + 1
  }

  /** What each critical section does to entries and channels. */
  ghost predicate Effect(a: Acks, s: Section, a': Acks)
  {
    match s
    case HandleOk(text) =>
      if text in a.pending then Confirmed(a, a', text)
      else if Contains(text, SUBSCRIBED_TO) then Confirmed(a, a', TrimPrefix(text, SUBSCRIBED_TO))
      else a' == a
    case ClearOld(k) => Confirmed(a, a', k)
    case Register(k) => Registered(a, a', k) && ClosedOnce(a.closes, a'.closes, {})
    case Forget(k) =>
      && a'.pending == (map l | l in a.pending && l != k :: a.pending[l])
      && ClosedOnce(a.closes, a'.closes, {}) && a'.next == a.next
    case Replace(k) =>
      Registered(a, a', k) && ClosedOnce(a.closes, a'.closes, if k in a.pending then {a.pending[k]} else {})
    case ClearAll => a'.pending == map[] && ClosedOnce(a.closes, a'.closes, a.pending.Values) && a'.next == a.next
  }

  lemma CloseEntryConfirms(a: Acks, k: Str)
    ensures Confirmed(a, CloseEntry(a, k), k)
  {
  }

  lemma ApplyEffect(a: Acks, s: Section)
    ensures Effect(a, s, Apply(a, s))
  {
    match s
    case HandleOk(text) =>
      CloseEntryConfirms(a, text);
      CloseEntryConfirms(a, TrimPrefix(text, SUBSCRIBED_TO));
    case ClearOld(k) => CloseEntryConfirms(a, k);
    case Replace(k) => CloseEntryConfirms(a, k);
    case _ =>
  }

  /** Pending channels are open and each belongs to one entry; no channel was closed twice. */
  ghost predicate Safe(a: Acks)
  {
    && (forall k :: k in a.pending ==> a.pending[k] < a.next && a.closes[a.pending[k]] == 0)
    && (forall k, l :: k in a.pending && l in a.pending && a.pending[k] == a.pending[l] ==> k == l)
    && (forall c: Channel :: a.closes[c] <= 1 && (c >= a.next ==> a.closes[c] == 0))
  }

  lemma CloseEntrySafe(a: Acks, k: Str)
    requires Safe(a)
    ensures Safe(CloseEntry(a, k))
  {
  }

  lemma CloseAllSafe(a: Acks)
    requires Safe(a)
    ensures Safe(CloseAll(a))
  {
  }

  lemma ApplySafe(a: Acks, s: Section)
    requires Safe(a)
    ensures Safe(Apply(a, s))
  {
    match s
    case HandleOk(text) =>
      CloseEntrySafe(a, text);
      CloseEntrySafe(a, TrimPrefix(text, SUBSCRIBED_TO));
    case ClearOld(k) => CloseEntrySafe(a, k);
    case Replace(k) => CloseEntrySafe(a, k);
    case ClearAll => CloseAllSafe(a);
    case _ =>
  }

  function Run(a: Acks, sections: seq<Section>): (a': Acks)
    decreases |sections|
  {
    if sections == [] then a else Run(Apply(a, sections[0]), sections[1..])
  }

  lemma {:induction false} RunSafe(a: Acks, sections: seq<Section>)
    requires Safe(a)
    ensures Safe(Run(a, sections))
    decreases |sections|
  {
    if sections == [] {
    } else {
      ApplySafe(a, sections[0]);
      RunSafe(Apply(a, sections[0]), sections[1..]);
    }
  }

  /** Over every interleaving of the critical sections, pending channels are open and held by one
      entry, and no ACK channel is closed twice. */
  lemma NeverClosedTwice(sections: seq<Section>)
    ensures Safe(Run(NO_ACKS, sections))
  {
    RunSafe(NO_ACKS, sections);
  }

  // ---------------------------------------------------------------- the code, guards included

  /** Closing one entry and then all is closing all. */
  lemma OneLessToClose(a: Acks, k: Str)
    requires Safe(a) && k in a.pending
    ensures CloseAll(CloseEntry(a, k)) == CloseAll(a)
  {
    var rest := a.pending - {k};
    forall c: Channel
      ensures c in a.pending.Values <==> c in rest.Values || c == a.pending[k]
      ensures a.pending[k] !in rest.Values
    {
      if c in a.pending.Values && c != a.pending[k] {
        var l :| l in a.pending && a.pending[l] == c;
        assert l in rest && rest[l] == c;
      }
    }
    var x, y := AddClose(a.closes, a.pending[k]) + multiset(rest.Values), a.closes + multiset(a.pending.Values);
    assert forall c: Channel :: x[c] == y[c];
    assert x == y;
  }

  /** The client's fields, with the "already acked" guard at every close. */
  class AckTable {
    var pending: map<Str, Channel>
    var closes: multiset<Channel>
    var next: Channel

    ghost function Value(): (a: Acks)
      reads this
    {
      Acks(pending, closes, next)
    }

    constructor ()
      ensures Value() == NO_ACKS
    {
      pending, closes, next := map[], multiset{}, 0;
    }

    /** select { case <-ack.acked: default: close(ack.acked) } and the delete that follows it. */
    method CloseAndDelete(subject: Str)
      requires Safe(Value()) && subject in pending
      modifies this
      ensures Value() == CloseEntry(old(Value()), subject)
    {
      var ack := pending[subject];
      if closes[ack] == 0 {
        closes := AddClose(closes, ack);
      }
      pending := pending - {subject};
    }

    method OnOk(text: Str)
      requires Safe(Value())
      modifies this
      ensures Value() == Apply(old(Value()), HandleOk(text)) && Safe(Value())
      ensures Effect(old(Value()), HandleOk(text), Value())
    {
      ApplySafe(Value(), HandleOk(text));
      ApplyEffect(Value(), HandleOk(text));
      if text in pending {
        CloseAndDelete(text);
      } else if Contains(text, SUBSCRIBED_TO) {
        var subject := TrimPrefix(text, SUBSCRIBED_TO);
        if subject in pending {
          CloseAndDelete(subject);
        }
      }
    }

    method OnRetry(subject: Str)
      requires Safe(Value())
      modifies this
      ensures Value() == Apply(old(Value()), ClearOld(subject)) && Safe(Value())
      ensures Effect(old(Value()), ClearOld(subject), Value())
    {
      ApplySafe(Value(), ClearOld(subject));
      ApplyEffect(Value(), ClearOld(subject));
      if subject in pending {
        CloseAndDelete(subject);
      }
    }

    method OnRegister(subject: Str) returns (ackChan: Channel)
      requires Safe(Value())
      modifies this
      ensures Value() == Apply(old(Value()), Register(subject)) && Safe(Value())
      ensures Effect(old(Value()), Register(subject), Value())
      ensures pending[subject] == ackChan && closes[ackChan] == 0
    {
      ApplySafe(Value(), Register(subject));
      ApplyEffect(Value(), Register(subject));
      ackChan := next;
      pending, next := pending[subject := ackChan], next + 1;
    }

    method OnForget(subject: Str)
      requires Safe(Value())
      modifies this
      ensures Value() == Apply(old(Value()), Forget(subject)) && Safe(Value())
      ensures Effect(old(Value()), Forget(subject), Value())
    {
      ApplyEffect(Value(), Forget(subject));
      pending := pending - {subject};
    }

    method OnReplace(subject: Str) returns (ackChan: Channel)
      requires Safe(Value())
      modifies this
      ensures Value() == Apply(old(Value()), Replace(subject)) && Safe(Value())
      ensures Effect(old(Value()), Replace(subject), Value())
      ensures pending[subject] == ackChan && closes[ackChan] == 0
    {
      ApplySafe(Value(), Replace(subject));
      ApplyEffect(Value(), Replace(subject));
      CloseEntrySafe(Value(), subject);
      if subject in pending {
        CloseAndDelete(subject);
      }
      ackChan := next;
      pending, next := pending[subject := ackChan], next + 1;
    }

    /** Close: ranges over the map, closing and deleting every entry. */
    method OnClose()
      requires Safe(Value())
      modifies this
      ensures Value() == Apply(old(Value()), ClearAll) && Safe(Value())
      ensures Effect(old(Value()), ClearAll, Value())
    {
      ghost var was := Value();
      ApplySafe(was, ClearAll);
      ApplyEffect(was, ClearAll);
      assert multiset(pending.Values) == multiset(was.pending.Values);
      while pending.Keys != {}
        invariant Safe(Value())
        invariant CloseAll(Value()) == CloseAll(was)
        decreases pending.Keys
      {
        var subject :| subject in pending.Keys;
        CloseEntrySafe(Value(), subject);
        OneLessToClose(Value(), subject);
        CloseAndDelete(subject);
      }
      assert pending == map[];
      assert pending.Values == {};
    }
  }

  // ---------------------------------------------------------------- the server's OK, end to end

  /** What the client makes of the OK the server sends for `subject`. */
  function AfterReply(a: Acks, reply: Message, rest: Str): (a': Acks)
    requires ReaderParse(Frame(reply) + rest).0.Read?
  {
    Apply(a, HandleOk(ReaderParse(Frame(reply) + rest).0.msg.subject))
  }

  /** The longest subject whose "subscribed to" text fits in a subject field. */
  const LONGEST_ACKED: nat := 4082

  /** The whole effect of the server's "subscribed to" OK - truncated, encoded, parsed, trimmed - on any
      table: it confirms an entry pending under the text itself if there is one, and otherwise the entry
      of the subject cut to 4082 bytes, which for a longer subject is a different one. The entry goes, its
      channel is closed once more, and no other entry or channel changes. */
  lemma AckEffect(a: Acks, subject: Str, rest: Str)
    ensures ReaderParse(Frame(SubscribedReply(subject)) + rest) == (Read(SubscribedReply(subject)), rest)
    ensures var text := SubscribedReply(subject).subject;
            Confirmed(a, AfterReply(a, SubscribedReply(subject), rest),
              if text in a.pending then text else Truncated(subject, LONGEST_ACKED))
  {
    RepliesAreAccepted(SUBSCRIBED_TO + subject, rest);
    AsciiIsValid("subscribed to ");
    TruncateAfter(SUBSCRIBED_TO, subject, LONGEST_ACKED);
    var text := SubscribedReply(subject).subject;
    assert text == SUBSCRIBED_TO + Truncated(subject, LONGEST_ACKED);
    assert TrimPrefix(text, SUBSCRIBED_TO) == Truncated(subject, LONGEST_ACKED);
    ApplyEffect(a, HandleOk(text));
  }

  /** Hence the OK closes the channel of its own subject's pending entry and removes the entry exactly when
      the subject has at most 4082 bytes (given that no entry is pending under the text itself); the entry
      of a longer one stays. */
  lemma AckConfirmsIff(a: Acks, subject: Str, rest: Str)
    requires subject in a.pending && SubscribedReply(subject).subject !in a.pending
    ensures ReaderParse(Frame(SubscribedReply(subject)) + rest) == (Read(SubscribedReply(subject)), rest)
    ensures Confirmed(a, AfterReply(a, SubscribedReply(subject), rest), subject) <==> |subject| <= LONGEST_ACKED
    ensures |subject| > LONGEST_ACKED ==> subject in AfterReply(a, SubscribedReply(subject), rest).pending
  {
    AckEffect(a, subject, rest);
  }

  /** The whole effect of an "unsubscribed from" OK: nothing, unless an entry is pending under its text. */
  lemma UnsubscribedConfirmsNothing(a: Acks, subject: Str, rest: Str)
    ensures ReaderParse(Frame(UnsubscribedReply(subject)) + rest) == (Read(UnsubscribedReply(subject)), rest)
    ensures Confirmed(a, AfterReply(a, UnsubscribedReply(subject), rest), UnsubscribedReply(subject).subject)
    ensures UnsubscribedReply(subject).subject !in a.pending ==> AfterReply(a, UnsubscribedReply(subject), rest) == a
  {
    RepliesAreAccepted(UNSUBSCRIBED_FROM + subject, rest);
    var text := UnsubscribedReply(subject).subject;
    assert text <= UNSUBSCRIBED_FROM + subject;
    assert SUBSCRIBED_TO[0] == 115 && (UNSUBSCRIBED_FROM + subject)[0] == 117;
    ApplyEffect(a, HandleOk(text));
  }
}
