/** A session's outgoing queue (server/session.go): any number of producers reserve bytes with a
    compare-and-swap loop and try a non-blocking channel send; one writer drains the channel. */
module SendQueue {
  import opened Bytes
  import opened Codec

  /** An encoded message on its way, tagged with who sent it and while handling which of their messages. */
  datatype Packet = Packet(sender: nat, serial: nat, msg: Message)

  const MAX_FRAME: nat := MAX_BODY_LEN + 4

  /** The length of the packet's frame. */
  function Size(p: Packet): (n: nat) { 4 + BodyLen(p.msg) }

  datatype Failure = SessionClosed | TooLarge | Backpressure | QueueFull

  datatype Outcome = Accepted | Failed(why: Failure)

  /** A producer inside SendEncoded/enqueueEncoded. */
  datatype Producer =
    | Idle
    | Ready(packet: Packet)                  // about to load queuedBytes
    | Loaded(packet: Packet, current: int)   // the limit check passed for the loaded value
    | Reserved(packet: Packet)               // the swap succeeded
    | Refunding(packet: Packet)              // the channel was full
    | Returned(outcome: Outcome)

  /** The write loop: waiting, holding data before and after queuedBytes is reduced, or gone. */
  datatype Writer = Waiting | Taken(packet: Packet) | Writing(packet: Packet) | Exited(lost: seq<Packet>)

  /** `accepted`, `handed` and `broken` are histories: the packets that entered the channel, those whose
      Write succeeded, and the bytes a failed Write had put on the wire. */
  datatype Queue = Queue(
    limit: int,
    capacity: nat,
    queued: int,
    outChan: seq<Packet>,
    closed: bool,
    producers: seq<Producer>,
    writer: Writer,
    accepted: seq<Packet>,
    handed: seq<Packet>,
    broken: Str)

  function Start(limit: int, capacity: nat, producers: nat): (q: Queue)
  {
    Queue(limit, capacity, 0, [], false, seq(producers, _ => Idle), Waiting, [], [], [])
  }

  datatype Event =
    | Call(p: nat, packet: Packet)
    | Load(p: nat)
    | Swap(p: nat)
    | Send(p: nat)
    | Refund(p: nat)
    | Return(p: nat)
    | Take
    | Give
    | WriteOk
    | WriteFail(k: nat)
    | Stop
    | Close

  predicate Enabled(q: Queue, e: Event)
  {
    match e
    case Call(p, _) => p < |q.producers| && q.producers[p].Idle?
    case Load(p) => p < |q.producers| && q.producers[p].Ready?
    case Swap(p) => p < |q.producers| && q.producers[p].Loaded?
    case Send(p) => p < |q.producers| && q.producers[p].Reserved?
    case Refund(p) => p < |q.producers| && q.producers[p].Refunding?
    case Return(p) => p < |q.producers| && q.producers[p].Returned?
    case Take => q.writer.Waiting? && q.outChan != []
    case Give => q.writer.Taken?
    case WriteOk => q.writer.Writing?
    case WriteFail(k) => q.writer.Writing? && k <= Size(q.writer.packet)
    case Stop => q.writer.Waiting? && q.closed
    case Close => true
  }

  function At(q: Queue, p: nat, s: Producer): (q': Queue)
    requires p < |q.producers|
  {
    q.(producers := q.producers[p := s])
  }

  /** One atomic step. The two loads of `closed` before a reservation act as one: the flag never falls,
      so the second load decides. */
  function Do(q: Queue, e: Event): (q': Queue)
    requires Enabled(q, e)
  {
    match e
    case Call(p, packet) =>
      At(q, p, if q.closed then Returned(Failed(SessionClosed))
               else if Size(packet) > MAX_FRAME then Returned(Failed(TooLarge))
               else Ready(packet))
    case Load(p) =>
      var packet := q.producers[p].packet;
      var next := Wrap64(q.queued + Size(packet));
      At(q, p, if q.limit > 0 && next > q.limit then Returned(Failed(Backpressure)) else Loaded(packet, q.queued))
    case Swap(p) =>
      var Loaded(packet, current) := q.producers[p];
      if q.queued != current then At(q, p, Ready(packet))
      else At(q, p, Reserved(packet)).(queued := Wrap64(current + Size(packet)))
    case Send(p) =>
      var packet := q.producers[p].packet;
      if |q.outChan| < q.capacity
      then At(q, p, Returned(Accepted)).(outChan := q.outChan + [packet], accepted := q.accepted + [packet])
      else At(q, p, Refunding(packet))
    case Refund(p) =>
      At(q, p, Returned(Failed(QueueFull))).(queued := Wrap64(q.queued - Size(q.producers[p].packet)))
    case Return(p) => At(q, p, Idle)
    case Take => q.(outChan := q.outChan[1..], writer := Taken(q.outChan[0]))
    case Give => q.(queued := Wrap64(q.queued - Size(q.writer.packet)), writer := Writing(q.writer.packet))
    case WriteOk => q.(writer := Waiting, handed := q.handed + [q.writer.packet])
    case WriteFail(k) =>
      q.(writer := Exited([q.writer.packet]), broken := Frame(q.writer.packet.msg)[..k], closed := true)
    case Stop => q.(writer := Exited([]))
    case Close => q.(closed := true)
  }

  predicate IsRun(q: Queue, es: seq<Event>)
    decreases |es|
  {
    es == [] || (Enabled(q, es[0]) && IsRun(Do(q, es[0]), es[1..]))
  }

  function Exec(q: Queue, es: seq<Event>): (q': Queue)
    requires IsRun(q, es)
    decreases |es|
  {
    if es == [] then q else Exec(Do(q, es[0]), es[1..])
  }

  // ---------------------------------------------------------------- conservation of bytes

  function Sizes(ps: seq<Packet>): (n: nat)
  {
    if ps == [] then 0 else Size(ps[0]) + Sizes(ps[1..])
  }

  /** Bytes a producer has reserved and neither sent nor refunded. */
  function ReservedBytes(s: Producer): (n: nat)
  {
    if s.Reserved? || s.Refunding? then Size(s.packet) else 0
  }

  function AllReserved(ss: seq<Producer>): (n: nat)
  {
    if ss == [] then 0 else ReservedBytes(ss[0]) + AllReserved(ss[1..])
  }

  function TakenBytes(w: Writer): (n: nat) { if w.Taken? then Size(w.packet) else 0 }

  /** Bytes in the channel, reserved but not yet sent or refunded, or taken but not yet subtracted. */
  function Outstanding(q: Queue): (n: nat)
  {
    Sizes(q.outChan) + AllReserved(q.producers) + TakenBytes(q.writer)
  }

  /** The limit leaves room for one more frame below the largest int64. */
  predicate RoomyLimit(limit: int) { 0 < limit <= MAX_INT64 - MAX_FRAME }

  predicate ProducerFits(limit: int, s: Producer)
  {
    && ((s.Ready? || s.Loaded? || s.Reserved? || s.Refunding?) ==> Size(s.packet) <= MAX_FRAME)
    && (s.Loaded? && RoomyLimit(limit) ==> 0 <= s.current && s.current + Size(s.packet) <= limit)
  }

  /** What the writer holds of the accepted packets. */
  function InHand(w: Writer): (ps: seq<Packet>)
  {
    match w
    case Waiting => []
    case Taken(p) => [p]
    case Writing(p) => [p]
    case Exited(lost) => lost
  }

  /** The counter is the outstanding bytes, as an int64; with room they stay within the limit. */
  predicate Counted(q: Queue)
  {
    && q.queued == Wrap64(Outstanding(q))
    && (RoomyLimit(q.limit) ==> Outstanding(q) <= q.limit)
  }

  predicate Fits(q: Queue)
  {
    forall p :: 0 <= p < |q.producers| ==> ProducerFits(q.limit, q.producers[p])
  }

  /** Packets leave in the order they were accepted; only a dead writer has lost one. */
  predicate InOrder(q: Queue)
  {
    && q.accepted == q.handed + InHand(q.writer) + q.outChan
    && (!q.writer.Exited? ==> q.broken == [])
    && (q.writer.Exited? ==> |q.writer.lost| <= 1 && q.closed)
    && (q.broken != [] ==> |q.writer.lost| == 1 && q.broken <= Frame(q.writer.lost[0].msg))
  }

  predicate Inv(q: Queue) { Counted(q) && Fits(q) && InOrder(q) && |q.outChan| <= q.capacity }

  lemma {:induction false} SizesAppend(ps: seq<Packet>, p: Packet)
    ensures Sizes(ps + [p]) == Sizes(ps) + Size(p)
  {
    if ps == [] {
      assert ps + [p] == [p];
    } else {
      SizesAppend(ps[1..], p);
      assert (ps + [p])[1..] == ps[1..] + [p];
    }
  }

  lemma {:induction false} AllReservedUpdate(ss: seq<Producer>, i: nat, s: Producer)
    requires i < |ss|
    ensures AllReserved(ss[i := s]) == AllReserved(ss) - ReservedBytes(ss[i]) + ReservedBytes(s)
  {
    if i == 0 {
      assert ss[0 := s][1..] == ss[1..];
    } else {
      AllReservedUpdate(ss[1..], i - 1, s);
      assert ss[i := s][1..] == ss[1..][i - 1 := s];
    }
  }

  /** How a step changes the outstanding bytes. */
  function Delta(q: Queue, e: Event): (d: int)
    requires Enabled(q, e)
  {
    match e
    case Swap(p) => if q.queued == q.producers[p].current then Size(q.producers[p].packet) else 0
    case Refund(p) => 0 - Size(q.producers[p].packet)
    case Give => 0 - Size(q.writer.packet)
    case _ => 0
  }

  predicate ByProducer(e: Event) { e.Call? || e.Load? || e.Swap? || e.Send? || e.Refund? || e.Return? }

  lemma OutstandingStep(q: Queue, e: Event)
    requires Enabled(q, e)
    ensures Outstanding(Do(q, e)) == Outstanding(q) + Delta(q, e)
  {
    if ByProducer(e) {
      AllReservedUpdate(q.producers, e.p, Do(q, e).producers[e.p]);
      if e.Send? {
        SizesAppend(q.outChan, q.producers[e.p].packet);
      }
    }
  }

  /** The counter moves by the same amount. */
  lemma CounterStep(q: Queue, e: Event)
    requires InInt64(q.queued) && Enabled(q, e)
    ensures Do(q, e).queued == Wrap64(q.queued + Delta(q, e))
  {
  }

  lemma StepCounted(q: Queue, e: Event)
    requires Inv(q) && Enabled(q, e)
    ensures Counted(Do(q, e))
  {
    OutstandingStep(q, e);
    CounterStep(q, e);
    WrapAdd(Outstanding(q), Delta(q, e));
    if e.Swap? {
      assert ProducerFits(q.limit, q.producers[e.p]);
    }
  }

  lemma StepFits(q: Queue, e: Event)
    requires Inv(q) && Enabled(q, e)
    ensures Fits(Do(q, e))
  {
    if ByProducer(e) {
      var s := q.producers[e.p];
      assert ProducerFits(q.limit, s);
      assert ProducerFits(q.limit, Do(q, e).producers[e.p]);
    }
  }

  lemma SendInOrder(q: Queue, p: nat)
    requires InOrder(q) && Enabled(q, Send(p))
    ensures InOrder(Do(q, Send(p)))
  {
  }

  lemma WriterInOrder(q: Queue, e: Event)
    requires InOrder(q) && Enabled(q, e) && !ByProducer(e)
    ensures InOrder(Do(q, e))
  {
  }

  lemma StepInOrder(q: Queue, e: Event)
    requires InOrder(q) && Enabled(q, e)
    ensures InOrder(Do(q, e))
  {
    if e.Send? {
      SendInOrder(q, e.p);
    } else if !ByProducer(e) {
      WriterInOrder(q, e);
    }
  }

  lemma StepBounded(q: Queue, e: Event)
    requires |q.outChan| <= q.capacity && Enabled(q, e)
    ensures |Do(q, e).outChan| <= Do(q, e).capacity
  {
  }

  lemma StepInv(q: Queue, e: Event)
    requires Inv(q) && Enabled(q, e)
    ensures Inv(Do(q, e))
  {
    StepCounted(q, e);
    StepFits(q, e);
    StepInOrder(q, e);
    StepBounded(q, e);
  }

  lemma {:induction false} RunInv(q: Queue, es: seq<Event>)
    requires Inv(q) && IsRun(q, es)
    ensures Inv(Exec(q, es))
    decreases |es|
  {
    if es == [] {
    } else {
      StepInv(q, es[0]);
      RunInv(Do(q, es[0]), es[1..]);
    }
  }

  lemma {:induction false} IdleHoldNothing(n: nat)
    ensures AllReserved(seq(n, _ => Idle)) == 0
  {
    if n == 0 {
    } else {
      IdleHoldNothing(n - 1);
      assert seq(n, _ => Idle)[1..] == seq(n - 1, _ => Idle);
    }
  }

  lemma StartInv(limit: int, capacity: nat, producers: nat)
    ensures Inv(Start(limit, capacity, producers))
  {
    IdleHoldNothing(producers);
  }

  lemma {:induction false} LimitIsFixed(q: Queue, es: seq<Event>)
    requires IsRun(q, es)
    ensures Exec(q, es).limit == q.limit
    decreases |es|
  {
    if es == [] {
    } else {
      LimitIsFixed(Do(q, es[0]), es[1..]);
    }
  }

  /** Backpressure, in every interleaving of any number of producers with the writer: queuedBytes is the
      bytes in the channel, reserved or taken (as an int64 in general), and under a positive limit with
      room below the largest int64 it is exactly that number and never leaves 0..limit. */
  lemma BackpressureHolds(limit: int, capacity: nat, producers: nat, es: seq<Event>)
    requires IsRun(Start(limit, capacity, producers), es)
    ensures var q := Exec(Start(limit, capacity, producers), es);
            && q.queued == Wrap64(Outstanding(q))
            && (0 < limit <= MAX_INT64 - MAX_FRAME ==>
                 q.queued == Outstanding(q) && 0 <= q.queued <= limit && Sizes(q.outChan) <= limit)
  {
    var q0 := Start(limit, capacity, producers);
    StartInv(limit, capacity, producers);
    RunInv(q0, es);
    LimitIsFixed(q0, es);
  }

  // ---------------------------------------------------------------- what becomes of a send

  /** The byte limit is off, or leaves room for one more frame below the largest int64. */
  predicate SoundLimit(limit: int) { limit <= 0 || RoomyLimit(limit) }

  /** The packet's frame would take the outstanding bytes over the limit. */
  predicate OverLimit(q: Queue, packet: Packet)
  {
    q.limit > 0 && Outstanding(q) + |Frame(packet.msg)| > q.limit
  }

  /** With room, a producer is turned away at the limit check exactly when its frame would take the
      bytes really outstanding over the limit. */
  lemma RefusedIffOverLimit(q: Queue, p: nat)
    requires Inv(q) && Enabled(q, Load(p)) && RoomyLimit(q.limit)
    ensures Do(q, Load(p)).producers[p] == Returned(Failed(Backpressure)) <==>
            Outstanding(q) + Size(q.producers[p].packet) > q.limit
  {
    assert ProducerFits(q.limit, q.producers[p]);
  }

  /** Each outcome of a send has its own cause and no other, whatever step is taken: a closed session, a
      frame over 8 MiB and four bytes, too many bytes outstanding, a full channel, or room in it. */
  lemma OutcomeCauses(q: Queue, e: Event, p: nat)
    requires Inv(q) && SoundLimit(q.limit) && Enabled(q, e) && p < |q.producers| && !q.producers[p].Returned?
    ensures var s := Do(q, e).producers[p];
            && (s == Returned(Failed(SessionClosed)) <==> e.Call? && e.p == p && q.closed)
            && (s == Returned(Failed(TooLarge)) <==>
                  e.Call? && e.p == p && !q.closed && |Frame(e.packet.msg)| > 8388612)
            && (s == Returned(Failed(Backpressure)) <==> e == Load(p) && OverLimit(q, q.producers[p].packet))
            && (s == Returned(Failed(QueueFull)) <==> e == Refund(p))
            && (s.Refunding? && !q.producers[p].Refunding? <==> e == Send(p) && |q.outChan| == q.capacity)
            && (s == Returned(Accepted) <==> e == Send(p) && |q.outChan| < q.capacity)
  {
    if !ByProducer(e) || e.p != p {
      assert Do(q, e).producers[p] == q.producers[p];
    } else if e == Load(p) && q.limit > 0 {
      RefusedIffOverLimit(q, p);
    }
  }

  /** A producer past the closed check whose packet is neither accepted nor refused. */
  predicate Undecided(s: Producer) { s.Ready? || s.Loaded? || s.Reserved? }

  function ChannelVerdict(q: Queue): (o: Outcome)
  {
    if |q.outChan| < q.capacity then Accepted else Failed(QueueFull)
  }

  /** What becomes of producer p's call if nobody else moves. */
  function Verdict(q: Queue, p: nat): (o: Outcome)
    requires p < |q.producers| && !q.producers[p].Idle?
  {
    match q.producers[p]
    case Ready(packet) => if OverLimit(q, packet) then Failed(Backpressure) else ChannelVerdict(q)
    case Loaded(packet, current) =>
      if current != q.queued && OverLimit(q, packet) then Failed(Backpressure) else ChannelVerdict(q)
    case Reserved(_) => ChannelVerdict(q)
    case Refunding(_) => Failed(QueueFull)
    case Returned(o) => o
  }

  /** The packets the call still adds to the channel. */
  function Adds(q: Queue, p: nat): (ps: seq<Packet>)
    requires p < |q.producers| && !q.producers[p].Idle?
  {
    if Undecided(q.producers[p]) && Verdict(q, p).Accepted? then [q.producers[p].packet] else []
  }

  /** The next step of a producer inside its call. */
  function NextOf(q: Queue, p: nat): (e: Event)
    requires p < |q.producers| && !q.producers[p].Idle? && !q.producers[p].Returned?
    ensures Enabled(q, e) && ByProducer(e) && !e.Call? && !e.Return? && e.p == p
  {
    match q.producers[p]
    case Ready(_) => Load(p)
    case Loaded(_, _) => Swap(p)
    case Reserved(_) => Send(p)
    case Refunding(_) => Refund(p)
  }

  /** A bound on its remaining steps when nobody else moves; a stale load costs one round more. */
  function StepsLeft(q: Queue, p: nat): (n: nat)
    requires p < |q.producers|
  {
    match q.producers[p]
    case Ready(_) => 4
    case Loaded(_, current) => if current == q.queued then 3 else 5
    case Reserved(_) => 2
    case Refunding(_) => 1
    case _ => 0
  }

  /** A step of p leaves its verdict and what its call adds in all as they were, and is one step less. */
  predicate KeepsVerdict(q: Queue, q': Queue, p: nat)
    requires p < |q.producers| && !q.producers[p].Idle?
  {
    && |q'.producers| == |q.producers| && !q'.producers[p].Idle?
    && StepsLeft(q', p) < StepsLeft(q, p)
    && Verdict(q', p) == Verdict(q, p)
    && q'.accepted + Adds(q', p) == q.accepted + Adds(q, p)
  }

  lemma LoadKeepsVerdict(q: Queue, p: nat)
    requires Inv(q) && SoundLimit(q.limit) && Enabled(q, Load(p))
    ensures KeepsVerdict(q, Do(q, Load(p)), p)
  {
    if q.limit > 0 {
      RefusedIffOverLimit(q, p);
    }
  }

  lemma SwapKeepsVerdict(q: Queue, p: nat)
    requires Inv(q) && Enabled(q, Swap(p))
    ensures KeepsVerdict(q, Do(q, Swap(p)), p)
  {
    OutstandingStep(q, Swap(p));
  }

  lemma SendKeepsVerdict(q: Queue, p: nat)
    requires Enabled(q, Send(p))
    ensures KeepsVerdict(q, Do(q, Send(p)), p)
  {
  }

  lemma NextKeepsVerdict(q: Queue, p: nat)
    requires Inv(q) && SoundLimit(q.limit)
    requires p < |q.producers| && !q.producers[p].Idle? && !q.producers[p].Returned?
    ensures KeepsVerdict(q, Do(q, NextOf(q, p)), p)
  {
    match q.producers[p]
    case Ready(_) => LoadKeepsVerdict(q, p);
    case Loaded(_, _) => SwapKeepsVerdict(q, p);
    case Reserved(_) => SendKeepsVerdict(q, p);
    case Refunding(_) =>
  }

  /** The steps of one producer alone. */
  predicate ByAlone(es: seq<Event>, p: nat)
  {
    forall i :: 0 <= i < |es| ==> ByProducer(es[i]) && !es[i].Call? && !es[i].Return? && es[i].p == p
  }

  /** A send never blocks: from every state a producer inside returns by at most five steps of its own, and
      if nobody else moves meanwhile, with its verdict. */
  lemma {:induction false} ReturnsAlone(q: Queue, p: nat) returns (es: seq<Event>)
    requires Inv(q) && SoundLimit(q.limit) && p < |q.producers| && !q.producers[p].Idle?
    ensures |es| <= StepsLeft(q, p) && ByAlone(es, p) && IsRun(q, es)
    ensures var q' := Exec(q, es);
            && |q'.producers| == |q.producers| && q'.producers[p] == Returned(Verdict(q, p))
            && q'.accepted == q.accepted + Adds(q, p)
    decreases StepsLeft(q, p)
  {
    if q.producers[p].Returned? {
      es := [];
    } else {
      var e := NextOf(q, p);
      StepInv(q, e);
      NextKeepsVerdict(q, p);
      var rest := ReturnsAlone(Do(q, e), p);
      es := [e] + rest;
      assert es[1..] == rest;
    }
  }

  /** What SendEncoded decides when no other call overlaps it. */
  function SendVerdict(q: Queue, packet: Packet): (o: Outcome)
  {
    if q.closed then Failed(SessionClosed)
    else if |Frame(packet.msg)| > 8388612 then Failed(TooLarge)
    else if OverLimit(q, packet) then Failed(Backpressure)
    else if |q.outChan| == q.capacity then Failed(QueueFull)
    else Accepted
  }

  /** A call whose steps no other interrupts: from every state it returns its verdict, and exactly when that is
      acceptance the packet has joined the channel's history. */
  lemma LoneSend(q: Queue, p: nat, packet: Packet) returns (es: seq<Event>)
    requires Inv(q) && SoundLimit(q.limit) && p < |q.producers| && q.producers[p].Idle?
    ensures |es| <= 4 && ByAlone(es, p) && IsRun(q, [Call(p, packet)] + es)
    ensures var q' := Exec(q, [Call(p, packet)] + es); var o := SendVerdict(q, packet);
            && p < |q'.producers| && q'.producers[p] == Returned(o)
            && q'.accepted == q.accepted + if o.Accepted? then [packet] else []
  {
    var call := Call(p, packet);
    var q1 := Do(q, call);
    StepInv(q, call);
    OutstandingStep(q, call);
    es := ReturnsAlone(q1, p);
    assert ([call] + es)[1..] == es;
  }

  predicate Accepting(q: Queue, e: Event)
  {
    e.Send? && |q.outChan| < q.capacity
  }

  /** The producer whose send a step accepts, if any. */
  function AcceptedNow(q: Queue, e: Event): (ps: seq<nat>) { if Accepting(q, e) then [e.p] else [] }

  /** The producers whose sends a run accepts, in order. */
  function AcceptedBy(q: Queue, es: seq<Event>): (ps: seq<nat>)
    requires IsRun(q, es)
    decreases |es|
  {
    if es == [] then [] else AcceptedNow(q, es[0]) + AcceptedBy(Do(q, es[0]), es[1..])
  }

  /** Different producers, each inside and undecided. */
  predicate AllInside(q: Queue, ps: seq<nat>)
  {
    && (forall i :: 0 <= i < |ps| ==> ps[i] < |q.producers| && Undecided(q.producers[ps[i]]))
    && (forall i, j :: 0 <= i < j < |ps| ==> ps[i] != ps[j])
  }

  function PacketsOf(q: Queue, ps: seq<nat>): (packets: seq<Packet>)
    requires AllInside(q, ps)
    ensures |packets| == |ps|
    ensures forall i :: 0 <= i < |ps| ==> packets[i] == q.producers[ps[i]].packet
  {
    seq(|ps|, i requires 0 <= i < |ps| => q.producers[ps[i]].packet)
  }

  /** In a closed queue nobody becomes undecided, and the undecided keep their packets. */
  lemma ClosedStep(q: Queue, e: Event, p: nat)
    requires q.closed && Enabled(q, e) && p < |q.producers| && Undecided(Do(q, e).producers[p])
    ensures Undecided(q.producers[p]) && q.producers[p].packet == Do(q, e).producers[p].packet
    ensures p !in AcceptedNow(q, e)
  {
  }

  lemma AcceptStep(q: Queue, e: Event)
    requires Enabled(q, e)
    ensures AllInside(q, AcceptedNow(q, e))
    ensures Do(q, e).accepted == q.accepted + PacketsOf(q, AcceptedNow(q, e))
    ensures |Do(q, e).producers| == |q.producers|
    ensures q.closed ==> Do(q, e).closed
  {
  }

  lemma ClosedStepAll(q: Queue, e: Event, rest: seq<nat>)
    requires q.closed && Enabled(q, e) && AllInside(Do(q, e), rest)
    ensures AllInside(q, AcceptedNow(q, e) + rest)
    ensures PacketsOf(q, AcceptedNow(q, e) + rest) == PacketsOf(q, AcceptedNow(q, e)) + PacketsOf(Do(q, e), rest)
  {
    AcceptStep(q, e);
    forall i | 0 <= i < |rest|
      ensures Undecided(q.producers[rest[i]]) && q.producers[rest[i]].packet == Do(q, e).producers[rest[i]].packet
      ensures rest[i] !in AcceptedNow(q, e)
    {
      ClosedStep(q, e, rest[i]);
    }
  }

  lemma {:induction false} ClosedRun(q: Queue, es: seq<Event>)
    requires q.closed && IsRun(q, es)
    ensures AllInside(q, AcceptedBy(q, es))
    ensures Exec(q, es).accepted == q.accepted + PacketsOf(q, AcceptedBy(q, es))
    decreases |es|
  {
    if es == [] {
    } else {
      var e, q' := es[0], Do(q, es[0]);
      AcceptStep(q, e);
      ClosedRun(q', es[1..]);
      var rest := AcceptedBy(q', es[1..]);
      ClosedStepAll(q, e, rest);
      Assoc(q.accepted, PacketsOf(q, AcceptedNow(q, e)), PacketsOf(q', rest));
    }
  }

  lemma {:induction false} RunSplit(q: Queue, es1: seq<Event>, es2: seq<Event>)
    requires IsRun(q, es1 + es2)
    ensures IsRun(q, es1) && IsRun(Exec(q, es1), es2)
    ensures Exec(q, es1 + es2) == Exec(Exec(q, es1), es2)
    decreases |es1|
  {
    if es1 == [] {
      assert es1 + es2 == es2;
    } else {
      assert (es1 + es2)[1..] == es1[1..] + es2;
      RunSplit(Do(q, es1[0]), es1[1..], es2);
    }
  }

  /** In every run, what is accepted after a Close comes from producers that were already inside, at most one
      packet from each, and exactly the packets they held; no later call gets in. */
  lemma AfterClose(q: Queue, es1: seq<Event>, es2: seq<Event>)
    requires IsRun(q, es1 + ([Close] + es2))
    ensures IsRun(q, es1) && IsRun(Exec(q, es1), [Close] + es2)
    ensures var q1 := Exec(q, es1);
            var ps := AcceptedBy(q1, [Close] + es2);
            AllInside(q1, ps) && Exec(q, es1 + ([Close] + es2)).accepted == q1.accepted + PacketsOf(q1, ps)
  {
    RunSplit(q, es1, [Close] + es2);
    var q1 := Exec(q, es1);
    var q2 := Do(q1, Close);
    assert ([Close] + es2)[1..] == es2;
    ClosedRun(q2, es2);
    assert AcceptedBy(q1, [Close] + es2) == AcceptedBy(q2, es2);
  }

  /** A bound on the steps of the write loop until nothing accepted is left. */
  function StepsToWrite(q: Queue): (n: nat)
  {
    3 * |q.outChan| + if q.writer.Taken? then 2 else if q.writer.Writing? then 1 else 0
  }

  /** A write loop that is still there catches up: from every state its own steps, with no failing Write, hand
      over everything accepted. */
  lemma {:induction false} WriterCatchesUp(q: Queue) returns (es: seq<Event>)
    requires Inv(q) && !q.writer.Exited?
    ensures |es| == StepsToWrite(q) && IsRun(q, es)
    ensures forall i :: 0 <= i < |es| ==> es[i].Take? || es[i].Give? || es[i].WriteOk?
    ensures Exec(q, es).handed == Exec(q, es).accepted == q.accepted
    decreases StepsToWrite(q)
  {
    if q.writer.Waiting? && q.outChan == [] {
      es := [];
    } else {
      var e := match q.writer case Waiting => Take case Taken(_) => Give case Writing(_) => WriteOk;
      StepInv(q, e);
      var rest := WriterCatchesUp(Do(q, e));
      es := [e] + rest;
      assert es[1..] == rest;
    }
  }

  // ---------------------------------------------------------------- what the peer can decode

  function Messages(ps: seq<Packet>): (ms: seq<Message>)
    ensures |ms| == |ps|
    ensures forall i :: 0 <= i < |ps| ==> ms[i] == ps[i].msg
  {
    seq(|ps|, i requires 0 <= i < |ps| => ps[i].msg)
  }

  /** Every byte the write loop has put on the connection. */
  function Written(q: Queue): (d: Str)
  {
    Frames(Messages(q.handed)) + q.broken
  }

  /** Frames followed by a piece of one more: the last message counts only if its frame is whole. */
  lemma LastFrame(sent: seq<Message>, last: Message, piece: Str)
    requires AllInLimits(sent) && InLimits(last) && piece <= Frame(last)
    ensures DecodeStream(Frames(sent) + piece) == if piece == Frame(last) then sent + [last] else sent
  {
    if piece == Frame(last) {
      FramesConcat(sent, [last]);
      assert Frames([last]) == Frame(last) + Frames([]);
      assert Frames(sent) + piece == Frames(sent + [last]) + [];
      UniqueDecoding(sent + [last], []);
    } else {
      StrictPrefixRejected(last, piece);
      UniqueDecoding(sent, piece);
    }
  }

  /** A torn frame is that of the first accepted message not handed over. */
  lemma TornFrame(q: Queue)
    requires InOrder(q)
    ensures q.handed <= q.accepted
    ensures q.broken != [] ==> |q.handed| < |q.accepted| && q.broken <= Frame(q.accepted[|q.handed|].msg)
  {
    if q.broken != [] {
      assert q.accepted[|q.handed|] == q.writer.lost[0];
    }
  }

  lemma DecodesPrefix(handed: seq<Packet>, accepted: seq<Packet>, broken: Str)
    requires handed <= accepted && AllInLimits(Messages(accepted))
    requires broken != [] ==> |handed| < |accepted| && broken <= Frame(accepted[|handed|].msg)
    ensures var d := DecodeStream(Frames(Messages(handed)) + broken);
            Messages(handed) <= d <= Messages(accepted)
  {
    var sent, all := Messages(handed), Messages(accepted);
    assert forall i :: 0 <= i < |sent| ==> sent[i] == all[i];
    if broken == [] {
      UniqueDecoding(sent, []);
    } else {
      LastFrame(sent, all[|sent|], broken);
    }
  }

  /** What reached the wire decodes to exactly a prefix of the accepted messages, in acceptance order:
      all that were handed over, plus the last one if a failing Write had already sent it whole. */
  lemma WrittenDecodes(q: Queue)
    requires Inv(q) && AllInLimits(Messages(q.accepted))
    ensures DecodeStream(Written(q)) <= Messages(q.accepted)
    ensures Messages(q.handed) <= DecodeStream(Written(q))
  {
    TornFrame(q);
    DecodesPrefix(q.handed, q.accepted, q.broken);
  }
}
