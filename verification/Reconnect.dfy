/** Connection-loss and reconnect flags (client/client.go): any number of goroutines reporting a loss,
    and the reconnect loops they start, interleaved step by step. */
module Reconnect {
  import opened Bytes

  /** A goroutine in triggerConnectionLost, and then the reconnect loop it may start. */
  datatype Task =
    | Off
    | Entered            // the done and context checks passed
    | Won                // set connectionLost, callback not yet started
    | Deciding           // about to read autoReconnect
    | Wants              // about to swap `reconnecting`
    | Looping(attempt: nat)
    | Connected          // doReconnect succeeded, connectionLost still set
    | Restoring
    | Ending             // about to clear `reconnecting`

  /** `wins`, `notified` and `successes` are histories: losses recorded, callbacks started, reconnects
      that cleared the flag. */
  datatype State = State(
    connectionLost: bool, reconnecting: bool, tasks: seq<Task>, wins: nat, notified: nat, successes: nat)

  function Start(goroutines: nat): (s: State)
  {
    State(false, false, seq(goroutines, _ => Off), 0, 0, 0)
  }

  datatype Event =
    | Enter(i: nat)
    | SwapLost(i: nat)
    | Notify(i: nat, hasCallback: bool)
    | Decide(i: nat, autoReconnect: bool)
    | SwapReconnecting(i: nat)
    | Attempt(i: nat, ok: bool)
    | GiveUp(i: nat)           // auto-reconnect switched off, or the client closed
    | ClearLost(i: nat)
    | Restored(i: nat)
    | Release(i: nat)

  predicate Enabled(s: State, e: Event)
  {
    && e.i < |s.tasks|
    && var t := s.tasks[e.i];
       match e {
         case Enter(_) => t.Off?
         case SwapLost(_) => t.Entered?
         case Notify(_, _) => t.Won?
         case Decide(_, _) => t.Deciding?
         case SwapReconnecting(_) => t.Wants?
         case Attempt(_, _) => t.Looping?
         case GiveUp(_) => t.Looping?
         case ClearLost(_) => t.Connected?
         case Restored(_) => t.Restoring?
         case Release(_) => t.Ending?
       }
  }

  function At(s: State, i: nat, t: Task): (s': State)
    requires i < |s.tasks|
  {
    s.(tasks := s.tasks[i := t])
  }

  function Do(s: State, e: Event): (s': State)
    requires Enabled(s, e)
  {
    match e
    case Enter(i) => At(s, i, Entered)
    case SwapLost(i) =>
      if s.connectionLost then At(s, i, Off) else At(s, i, Won).(connectionLost := true, wins := s.wins + 1)
    case Notify(i, hasCallback) => At(s, i, Deciding).(notified := s.notified + if hasCallback then 1 else 0)
    case Decide(i, autoReconnect) => At(s, i, if autoReconnect then Wants else Off)
    case SwapReconnecting(i) => if s.reconnecting then At(s, i, Off) else At(s, i, Looping(0)).(reconnecting := true)
    case Attempt(i, ok) => At(s, i, if ok then Connected else Looping(s.tasks[i].attempt + 1))
    case GiveUp(i) => At(s, i, Ending)
    case ClearLost(i) => At(s, i, Restoring).(connectionLost := false, successes := s.successes + 1)
    case Restored(i) => At(s, i, Ending)
    case Release(i) => At(s, i, Off).(reconnecting := false)
  }

  predicate IsRun(s: State, es: seq<Event>)
    decreases |es|
  {
    es == [] || (Enabled(s, es[0]) && IsRun(Do(s, es[0]), es[1..]))
  }

  function Exec(s: State, es: seq<Event>): (s': State)
    requires IsRun(s, es)
    decreases |es|
  {
    if es == [] then s else Exec(Do(s, es[0]), es[1..])
  }

  // ---------------------------------------------------------------- counting goroutines by what they hold

  datatype Role = Loop | Loss | Callback

  /** A live reconnect loop; a loss not yet cleared or abandoned; a callback still to start. */
  predicate Holds(t: Task, role: Role)
  {
    match role
    case Loop => t.Looping? || t.Connected? || t.Restoring? || t.Ending?
    case Loss => t.Won? || t.Deciding? || t.Wants? || t.Looping? || t.Connected?
    case Callback => t.Won?
  }

  function Weight(t: Task, role: Role): (n: nat) { if Holds(t, role) then 1 else 0 }

  function Holders(ts: seq<Task>, role: Role): (n: nat)
  {
    if ts == [] then 0 else Weight(ts[0], role) + Holders(ts[1..], role)
  }

  lemma {:induction false} HoldersUpdate(ts: seq<Task>, i: nat, t: Task, role: Role)
    requires i < |ts|
    ensures Holders(ts[i := t], role) == Holders(ts, role) - Weight(ts[i], role) + Weight(t, role)
  {
    if i == 0 {
      assert ts[0 := t][1..] == ts[1..];
    } else {
      HoldersUpdate(ts[1..], i - 1, t, role);
      assert ts[i := t][1..] == ts[1..][i - 1 := t];
    }
  }

  lemma {:induction false} HolderCounts(ts: seq<Task>, i: nat, role: Role)
    requires i < |ts|
    ensures Holders(ts, role) >= Weight(ts[i], role)
  {
    if i == 0 {
    } else {
      HolderCounts(ts[1..], i - 1, role);
    }
  }

  lemma {:induction false} TwoHolders(ts: seq<Task>, i: nat, j: nat, role: Role)
    requires i < j < |ts| && Holds(ts[i], role) && Holds(ts[j], role)
    ensures Holders(ts, role) >= 2
  {
    if i == 0 {
      HolderCounts(ts[1..], j - 1, role);
    } else {
      TwoHolders(ts[1..], i - 1, j - 1, role);
    }
  }

  function Bit(b: bool): (n: nat) { if b then 1 else 0 }

  predicate Inv(s: State)
  {
    && Holders(s.tasks, Loop) == Bit(s.reconnecting)
    && Holders(s.tasks, Loss) <= Bit(s.connectionLost)
    && s.wins == s.successes + Bit(s.connectionLost)
    && s.notified + Holders(s.tasks, Callback) <= s.wins
  }

  lemma StepInv(s: State, e: Event)
    requires Inv(s) && Enabled(s, e)
    ensures Inv(Do(s, e))
  {
    var t := Do(s, e).tasks[e.i];
    HoldersUpdate(s.tasks, e.i, t, Loop);
    HoldersUpdate(s.tasks, e.i, t, Loss);
    HoldersUpdate(s.tasks, e.i, t, Callback);
    HolderCounts(s.tasks, e.i, Loop);
    HolderCounts(s.tasks, e.i, Loss);
  }

  lemma {:induction false} RunInv(s: State, es: seq<Event>)
    requires Inv(s) && IsRun(s, es)
    ensures Inv(Exec(s, es))
    decreases |es|
  {
    if es == [] {
    } else {
      StepInv(s, es[0]);
      RunInv(Do(s, es[0]), es[1..]);
    }
  }

  lemma {:induction false} NobodyHolds(n: nat, role: Role)
    ensures Holders(seq(n, _ => Off), role) == 0
  {
    if n == 0 {
    } else {
      NobodyHolds(n - 1, role);
      assert seq(n, _ => Off)[1..] == seq(n - 1, _ => Off);
    }
  }

  /** In every run at most one reconnect loop is alive, and connection-lost notifications never exceed
      one more than the successful reconnects. */
  lemma GuardsHold(goroutines: nat, es: seq<Event>, i: nat, j: nat)
    requires IsRun(Start(goroutines), es)
    ensures var s := Exec(Start(goroutines), es);
            && (i < j < |s.tasks| ==> !(Holds(s.tasks[i], Loop) && Holds(s.tasks[j], Loop)))
            && s.notified <= s.wins <= s.successes + 1
            && (s.connectionLost <==> s.wins == s.successes + 1)
  {
    NobodyHolds(goroutines, Loop);
    NobodyHolds(goroutines, Loss);
    NobodyHolds(goroutines, Callback);
    RunInv(Start(goroutines), es);
    var s := Exec(Start(goroutines), es);
    if i < j < |s.tasks| && Holds(s.tasks[i], Loop) && Holds(s.tasks[j], Loop) {
      TwoHolders(s.tasks, i, j, Loop);
    }
  }

  // ---------------------------------------------------------------- which losses are repaired

  lemma {:induction false} RunJoin(s: State, es1: seq<Event>, es2: seq<Event>)
    requires IsRun(s, es1) && IsRun(Exec(s, es1), es2)
    ensures IsRun(s, es1 + es2) && Exec(s, es1 + es2) == Exec(Exec(s, es1), es2)
    decreases |es1|
  {
    if es1 == [] {
      assert es1 + es2 == es2;
    } else {
      assert (es1 + es2)[1..] == es1[1..] + es2;
      RunJoin(Do(s, es1[0]), es1[1..], es2);
    }
  }

  lemma RunFirst(s: State, e: Event, es: seq<Event>)
    requires Enabled(s, e) && IsRun(Do(s, e), es)
    ensures IsRun(s, [e] + es) && Exec(s, [e] + es) == Exec(Do(s, e), es)
  {
    assert ([e] + es)[1..] == es;
  }

  lemma {:induction false} FindHolder(ts: seq<Task>, role: Role) returns (i: nat)
    requires Holders(ts, role) > 0
    ensures i < |ts| && Holds(ts[i], role)
  {
    if Holds(ts[0], role) {
      i := 0;
    } else {
      i := FindHolder(ts[1..], role);
      i := i + 1;
    }
  }

  /** The connection is lost and no goroutine is left to do anything about it. */
  predicate Stranded(s: State) { s.connectionLost && Holders(s.tasks, Loss) == 0 }

  lemma StrandedStep(s: State, e: Event)
    requires Stranded(s) && Enabled(s, e)
    ensures Stranded(Do(s, e))
  {
    HolderCounts(s.tasks, e.i, Loss);
    HoldersUpdate(s.tasks, e.i, Do(s, e).tasks[e.i], Loss);
  }

  lemma {:induction false} StrandedForGood(s: State, es: seq<Event>)
    requires Stranded(s) && IsRun(s, es)
    ensures Stranded(Exec(s, es))
    decreases |es|
  {
    if es == [] {
    } else {
      StrandedStep(s, es[0]);
      StrandedForGood(Do(s, es[0]), es[1..]);
    }
  }

  /** A loop that no longer holds the loss ends and clears the flag. */
  lemma FreeFlag(s: State, i: nat) returns (es: seq<Event>)
    requires Inv(s) && i < |s.tasks| && s.tasks[i].Wants? && s.reconnecting
    ensures IsRun(s, es)
    ensures var s' := Exec(s, es);
            !s'.reconnecting && |s'.tasks| == |s.tasks| && s'.tasks[i] == s.tasks[i] && Inv(s')
  {
    var j := FindHolder(s.tasks, Loop);
    if Holds(s.tasks[j], Loss) {
      TwoHolders(s.tasks, if i < j then i else j, if i < j then j else i, Loss);
      assert false;
    }
    var s1 := if s.tasks[j].Restoring? then Do(s, Restored(j)) else s;
    RunFirst(s1, Release(j), []);
    es := [Release(j)];
    if s.tasks[j].Restoring? {
      RunFirst(s, Restored(j), es);
      es := [Restored(j)] + es;
    }
    RunInv(s, es);
  }

  function Rank(t: Task): (n: nat)
  {
    match t
    case Won => 5
    case Deciding => 4
    case Wants => 3
    case Looping(_) => 2
    case Connected => 1
    case _ => 0
  }

  /** With auto-reconnect on and a server that answers, whoever holds the loss can end it. */
  lemma {:induction false} Repair(s: State, i: nat) returns (es: seq<Event>)
    requires Inv(s) && i < |s.tasks| && Holds(s.tasks[i], Loss)
    ensures IsRun(s, es) && !Exec(s, es).connectionLost
    decreases Rank(s.tasks[i])
  {
    var front := [];
    if s.tasks[i].Wants? && s.reconnecting {
      front := FreeFlag(s, i);
    }
    var s1 := Exec(s, front);
    var e := match s1.tasks[i]
      case Won => Notify(i, false)
      case Deciding => Decide(i, true)
      case Wants => SwapReconnecting(i)
      case Looping(_) => Attempt(i, true)
      case _ => ClearLost(i);
    StepInv(s1, e);
    var rest := [];
    if !e.ClearLost? {
      rest := Repair(Do(s1, e), i);
    }
    RunJoin(s1, [e], rest);
    RunJoin(s, front, [e] + rest);
    es := front + ([e] + rest);
  }

  /** A lost connection can still be repaired exactly when some goroutine holds the loss: it has recorded it and
      has neither cleared nor abandoned it. */
  lemma RepairableIff(s: State)
    requires Inv(s) && s.connectionLost
    ensures (exists es :: IsRun(s, es) && !Exec(s, es).connectionLost) <==> Holders(s.tasks, Loss) > 0
  {
    if Holders(s.tasks, Loss) > 0 {
      var i := FindHolder(s.tasks, Loss);
      var es := Repair(s, i);
    } else {
      forall es | IsRun(s, es)
        ensures Exec(s, es).connectionLost
      {
        StrandedForGood(s, es);
      }
    }
  }

  /** triggerConnectionLost with auto-reconnect on. */
  function Report(j: nat, hasCallback: bool): (es: seq<Event>)
  {
    [Enter(j)] + ([SwapLost(j)] + ([Notify(j, hasCallback)] + ([Decide(j, true)] + ([SwapReconnecting(j)] + []))))
  }

  lemma ReportTasks(s: State, j: nat, hasCallback: bool)
    requires !s.connectionLost && j < |s.tasks| && s.tasks[j].Off?
    ensures IsRun(s, Report(j, hasCallback))
    ensures Exec(s, Report(j, hasCallback)) ==
            State(true, true, s.tasks[j := if s.reconnecting then Off else Looping(0)],
                  s.wins + 1, s.notified + Bit(hasCallback), s.successes)
  {
    var s1 := Do(s, Enter(j));
    var s2 := Do(s1, SwapLost(j));
    var s3 := Do(s2, Notify(j, hasCallback));
    var s4 := Do(s3, Decide(j, true));
    RunFirst(s4, SwapReconnecting(j), []);
    var es4: seq<Event> := [SwapReconnecting(j)] + [];
    RunFirst(s3, Decide(j, true), es4);
    RunFirst(s2, Notify(j, hasCallback), [Decide(j, true)] + es4);
    RunFirst(s1, SwapLost(j), [Notify(j, hasCallback)] + ([Decide(j, true)] + es4));
    RunFirst(s, Enter(j), [SwapLost(j)] + ([Notify(j, hasCallback)] + ([Decide(j, true)] + es4)));
  }

  /** A loss reported while the loop restores subscriptions is stranded: the reporter finds the reconnect flag
      set, although auto-reconnect is on, and nobody reconnects any more. */
  lemma LossDuringRestoreIsStranded(s: State, i: nat, j: nat, hasCallback: bool)
    requires Inv(s) && !s.connectionLost && i < |s.tasks| && s.tasks[i].Restoring? && j < |s.tasks| && s.tasks[j].Off?
    ensures var es := Report(j, hasCallback); IsRun(s, es) && Stranded(Exec(s, es))
  {
    HolderCounts(s.tasks, i, Loop);
    ReportTasks(s, j, hasCallback);
    HoldersUpdate(s.tasks, j, Off, Loss);
    assert s.tasks[j := Off] == s.tasks;
  }

  /** n failed attempts and one that succeeds, the flag cleared, subscriptions restored, the loop gone. */
  function Reconnecting(j: nat, n: nat): (es: seq<Event>)
  {
    if n == 0 then [Attempt(j, true)] + ([ClearLost(j)] + ([Restored(j)] + ([Release(j)] + [])))
    else [Attempt(j, false)] + Reconnecting(j, n - 1)
  }

  lemma {:induction false} ReconnectingEnds(s: State, j: nat, n: nat)
    requires j < |s.tasks| && s.tasks[j].Looping?
    ensures IsRun(s, Reconnecting(j, n))
    ensures Exec(s, Reconnecting(j, n)) ==
            State(false, false, s.tasks[j := Off], s.wins, s.notified, s.successes + 1)
    decreases n
  {
    if n == 0 {
      var s1 := Do(s, Attempt(j, true));
      var s2 := Do(s1, ClearLost(j));
      var s3 := Do(s2, Restored(j));
      RunFirst(s3, Release(j), []);
      var es3: seq<Event> := [Release(j)] + [];
      RunFirst(s2, Restored(j), es3);
      RunFirst(s1, ClearLost(j), [Restored(j)] + es3);
      RunFirst(s, Attempt(j, true), [ClearLost(j)] + ([Restored(j)] + es3));
    } else {
      var s1 := Do(s, Attempt(j, false));
      ReconnectingEnds(s1, j, n - 1);
      RunFirst(s, Attempt(j, false), Reconnecting(j, n - 1));
      assert s1.tasks[j := Off] == s.tasks[j := Off];
    }
  }

  /** A loss reported while no loop is alive is notified once and repaired, however many attempts fail first,
      and everything is as before but for the counts. */
  lemma LoneLossIsRepaired(s: State, j: nat, n: nat, hasCallback: bool)
    requires !s.connectionLost && !s.reconnecting && j < |s.tasks| && s.tasks[j].Off?
    ensures IsRun(s, Report(j, hasCallback) + Reconnecting(j, n))
    ensures Exec(s, Report(j, hasCallback) + Reconnecting(j, n)) ==
            s.(wins := s.wins + 1, notified := s.notified + Bit(hasCallback), successes := s.successes + 1)
  {
    ReportTasks(s, j, hasCallback);
    var s1 := Exec(s, Report(j, hasCallback));
    ReconnectingEnds(s1, j, n);
    RunJoin(s, Report(j, hasCallback), Reconnecting(j, n));
    assert s1.tasks[j := Off] == s.tasks;
  }

  // ---------------------------------------------------------------- backoff

  function Min(a: int, b: int): (m: int) { if a < b then a else b }

  /** 1 << k. */
  function Shift(k: nat): (n: nat)
    ensures n >= 1
  {
    if k == 0 then 1 else 2 * Shift(k - 1)
  }

  /** base * time.Duration(1 << min(attempt, 10)) in exact arithmetic. */
  function Scaled(base: int, attempt: nat): (d: int)
  {
    base * Shift(Min(attempt, 10))
  }

  /** The delay before jitter on a given attempt of one loop. */
  function Delay(base: int, maxBackoff: int, attempt: nat): (d: int)
  {
    var d := if attempt > 0 then Wrap64(Scaled(base, attempt)) else base;
    if maxBackoff > 0 && d > maxBackoff then maxBackoff else d
  }

  lemma {:induction false} ShiftMonotone(j: nat, k: nat)
    requires j <= k
    ensures Shift(j) <= Shift(k)
  {
    if j == k {
    } else {
      ShiftMonotone(j, k - 1);
    }
  }

  lemma MulMonotone(base: int, x: int, y: int)
    requires base > 0 && x <= y
    ensures base * x <= base * y
  {
  }

  lemma ScaledMonotone(base: int, a: nat, b: nat)
    requires base > 0 && a <= b
    ensures 0 < Scaled(base, a) <= Scaled(base, b)
  {
    ShiftMonotone(Min(a, 10), Min(b, 10));
    MulMonotone(base, Shift(Min(a, 10)), Shift(Min(b, 10)));
    MulMonotone(base, 1, Shift(Min(a, 10)));
  }

  /** The largest factor does not overflow. */
  predicate NoOverflow(base: int) { base * 1024 <= MAX_INT64 }

  lemma ShiftTen()
    ensures Shift(10) == 1024
  {
  }

  /** The first doubling that leaves the int64 range. */
  lemma {:induction false} FirstOverflow(base: int, k: nat) returns (j: nat)
    requires 0 < base <= MAX_INT64 && k <= 10 && base * Shift(k) > MAX_INT64
    ensures j < k && base * Shift(j) <= MAX_INT64 < base * Shift(j + 1)
  {
    if base * Shift(k - 1) <= MAX_INT64 {
      j := k - 1;
    } else {
      j := FirstOverflow(base, k - 1);
    }
  }

  lemma WrapsNegative(base: int, maxBackoff: int, j: nat)
    requires 0 < base <= MAX_INT64 && j < 10 && base * Shift(j) <= MAX_INT64 < base * Shift(j + 1)
    ensures Delay(base, maxBackoff, j) > 0 > Delay(base, maxBackoff, j + 1)
  {
    var x := base * Shift(j);
    assert base * Shift(j + 1) == 2 * x;
    ScaledMonotone(base, 0, j);
    assert Scaled(base, j) == x && Scaled(base, j + 1) == 2 * x;
    assert Wrap64(2 * x) == 2 * x - TWO_64;
  }

  /** With a positive interval the delays of a loop never shrink exactly when 1024 intervals fit in an int64. */
  lemma NeverShrinksIff(base: int, maxBackoff: int)
    requires 0 < base <= MAX_INT64
    ensures (forall a: nat :: Delay(base, maxBackoff, a) <= Delay(base, maxBackoff, a + 1)) <==> NoOverflow(base)
  {
    ShiftTen();
    if NoOverflow(base) {
      forall a: nat
        ensures Delay(base, maxBackoff, a) <= Delay(base, maxBackoff, a + 1)
      {
        ScaledMonotone(base, 0, a);
        ScaledMonotone(base, a, a + 1);
        ScaledMonotone(base, a + 1, a + 11);
        assert Scaled(base, a + 11) == base * 1024;
        assert Scaled(base, 0) == base;
      }
    } else {
      var k := FirstOverflow(base, 10);
      WrapsNegative(base, maxBackoff, k);
    }
  }

  /** The factors of attempts 0 to 10; it stays at the last. */
  const FACTORS: seq<nat> := [1, 2, 4, 8, 16, 32, 64, 128, 256, 512, 1024]

  function Factor(attempt: nat): (n: nat) { if attempt < 10 then FACTORS[attempt] else 1024 }

  lemma {:induction false} ShiftDoubles(k: nat)
    requires k <= 10
    ensures Shift(k) == FACTORS[k]
  {
    if k == 0 {
    } else {
      ShiftDoubles(k - 1);
    }
  }

  /** Without overflow the delay is the interval times the attempt's factor, cut to a positive maximum. With
      overflow the maximum is still never exceeded, and the delay is constant from attempt 10 on. */
  lemma DelayBounds(base: int, maxBackoff: int, attempt: nat)
    ensures maxBackoff > 0 ==> Delay(base, maxBackoff, attempt) <= maxBackoff
    ensures attempt >= 10 ==> Delay(base, maxBackoff, attempt) == Delay(base, maxBackoff, 10)
    ensures 0 < base && NoOverflow(base) ==>
              var exact := base * Factor(attempt);
              Delay(base, maxBackoff, attempt) == if 0 < maxBackoff < exact then maxBackoff else exact
  {
    ShiftDoubles(Min(attempt, 10));
    if 0 < base && NoOverflow(base) {
      ShiftTen();
      ScaledMonotone(base, attempt, attempt + 10);
      assert Scaled(base, attempt + 10) == base * 1024;
    }
  }

  lemma {:induction false} DelaysGrow(base: int, maxBackoff: int, i: nat, j: nat)
    requires i <= j
    requires forall a: nat :: Delay(base, maxBackoff, a) <= Delay(base, maxBackoff, a + 1)
    ensures Delay(base, maxBackoff, i) <= Delay(base, maxBackoff, j)
    decreases j
  {
    if i == j {
    } else {
      DelaysGrow(base, maxBackoff, i, j - 1);
      assert Delay(base, maxBackoff, j - 1) <= Delay(base, maxBackoff, j - 1 + 1);
    }
  }

  /** The loop of reconnect with unchanged settings: one delay per attempt, until doReconnect succeeds.
      `outcomes` says what each attempt returns. */
  method LoopDelays(base: int, maxBackoff: int, outcomes: seq<bool>) returns (delays: seq<int>)
    requires 0 < base <= MAX_INT64
    ensures |delays| <= |outcomes|
    ensures forall i :: 0 <= i < |delays| - 1 ==> !outcomes[i]
    ensures |delays| < |outcomes| ==> delays != [] && outcomes[|delays| - 1]
    ensures forall i :: 0 <= i < |delays| ==> delays[i] == Delay(base, maxBackoff, i)
    ensures NoOverflow(base) ==> forall i, j :: 0 <= i <= j < |delays| ==> delays[i] <= delays[j]
  {
    delays := [];
    var attempt := 0;
    while attempt < |outcomes|
      invariant |delays| == attempt <= |outcomes|
      invariant forall i :: 0 <= i < attempt ==> !outcomes[i]
      invariant forall i :: 0 <= i < attempt ==> delays[i] == Delay(base, maxBackoff, i)
    {
      var delay := base;
      if attempt > 0 {
        delay := Wrap64(base * Shift(Min(attempt, 10)));
      }
      if maxBackoff > 0 && delay > maxBackoff {
        delay := maxBackoff;
      }
      delays := delays + [delay];
      if outcomes[attempt] {
        break;
      }
      attempt := attempt + 1;
    }
    if NoOverflow(base) {
      NeverShrinksIff(base, maxBackoff);
      forall i, j | 0 <= i <= j < |delays|
        ensures delays[i] <= delays[j]
      {
        DelaysGrow(base, maxBackoff, i, j);
      }
    }
  }
}
