/** The latency ring buffer (client/ringbuffer.go) and the average computed from it. */
module RingBuffers {
  import opened Bytes

  /** The last n elements of s, or all of s if there are fewer. */
  function LastN(s: seq<int>, n: nat): (r: seq<int>)
    ensures |r| == if |s| < n then |s| else n
  {
    if |s| <= n then s else s[|s| - n..]
  }

  lemma NextSlot(i: nat, size: nat)
    requires i < size
    ensures (i + 1) % size == if i + 1 == size then 0 else i + 1
  {
  }

  /** A full buffer read from its head. */
  function Window(s: seq<int>, h: nat): (w: seq<int>)
    requires h <= |s|
    ensures |w| == |s|
  {
    s[h..] + s[..h]
  }

  /** Overwriting the oldest sample and moving the head on shifts the window by one. */
  lemma Rotates(was: seq<int>, h: nat, next: nat, item: int)
    requires h < |was| && next == if h + 1 == |was| then 0 else h + 1
    ensures Window(was[h := item], next) == Window(was, h)[1..] + [item]
  {
  }

  lemma Slides(s: seq<int>, item: int, n: nat)
    requires 0 < n <= |s|
    ensures LastN(s + [item], n) == LastN(s, n)[1..] + [item]
  {
  }

  class RingBuffer {
    var data: array<int>
    const size: nat
    var head: nat
    var tail: nat
    var count: nat
    ghost var samples: seq<int>  // everything added since the last Reset

    /** Not full: tail is 0 and head is count (back at 0 once it fills). Full: head and tail coincide. */
    ghost predicate Valid()
      reads this, data
    {
      && data.Length == size
      && count <= size && count == |LastN(samples, size)|
      && (count < size ==> tail == 0 && head == count && data[..count] == samples)
      && (count == size > 0 ==> head == tail < size && data[head..] + data[..head] == LastN(samples, size))
    }

    constructor (size: nat)
      ensures Valid() && fresh(data) && samples == [] && this.size == size
    {
      data := new int[size](_ => 0);
      this.size := size;
      head, tail, count := 0, 0, 0;
      samples := [];
    }

    method Add(item: int)
      requires Valid() && size > 0
      modifies this, data
      ensures Valid() && data == old(data)
      ensures samples == old(samples) + [item]
    {
      ghost var was := data[..];
      NextSlot(head, size);
      NextSlot(tail, size);
      if count == size {
        tail := (tail + 1) % size;
      } else {
        count := count + 1;
      }
      data[head] := item;
      head := (head + 1) % size;
      samples := samples + [item];
      assert data[..] == was[old(head) := item];
      if old(count) == size {
        Rotates(was, old(head), head, item);
        Slides(old(samples), item, size);
        assert Window(data[..], head) == data[head..] + data[..head];
      } else {
        assert data[..count] == was[..old(count)] + [item];
      }
    }

    /** A copy of the buffered samples, oldest first. */
    method ToSlice() returns (result: seq<int>)
      requires Valid()
      ensures result == LastN(samples, size)
    {
      if count == 0 {
        return [];
      }
      var slice := new int[count](_ => 0);
      if count < size {
        CopyInto(slice, 0, data[..count]);
        assert slice[..] == slice[..count] == samples;
      } else {
        var n := size - head;
        CopyInto(slice, 0, data[head..]);
        assert slice[..n] == data[head..];
        CopyInto(slice, n, data[..tail]);
        assert slice[..] == slice[..n + tail] == data[head..] + data[..tail];
      }
      result := slice[..];
    }

    method Reset()
      requires Valid()
      modifies this
      ensures Valid() && data == old(data) && samples == []
    {
      head, tail, count := 0, 0, 0;
      samples := [];
      assert data[0..] + data[..0] == data[..];
    }
  }

  // ---------------------------------------------------------------- the average

  function Sum(s: seq<int>): (n: int)
  {
    if s == [] then 0 else Sum(s[..|s| - 1]) + s[|s| - 1]
  }

  /** The sum is the one additive function that gives a single sample back. */
  lemma {:induction false} SumIsAdditive(a: seq<int>, b: seq<int>)
    ensures Sum(a + b) == Sum(a) + Sum(b)
    ensures forall x :: Sum([x]) == x
    decreases |b|
  {
    if b == [] {
      assert a + b == a;
    } else {
      SumIsAdditive(a, b[..|b| - 1]);
      assert (a + b)[..|a + b| - 1] == a + b[..|b| - 1];
    }
  }

  predicate AllWithin(s: seq<int>, lo: int, hi: int) { forall i :: 0 <= i < |s| ==> lo <= s[i] <= hi }

  /** Go's integer division, which truncates toward zero. */
  function Quotient(a: int, b: int): (q: int)
    requires b > 0
  {
    if a >= 0 then a / b else -((-a) / b)
  }

  lemma {:induction false} SumIsBetween(s: seq<int>, lo: int, hi: int)
    requires AllWithin(s, lo, hi)
    ensures lo * |s| <= Sum(s) <= hi * |s|
  {
    if s == [] {
    } else {
      var n := |s| - 1;
      SumIsBetween(s[..n], lo, hi);
      assert lo * (n + 1) == lo * n + lo && hi * (n + 1) == hi * n + hi;
    }
  }

  lemma DivisionIsBetween(a: int, n: int, lo: int, hi: int)
    requires a >= 0 && n > 0 && lo * n <= a <= hi * n
    ensures lo <= a / n <= hi
  {
    var q, r := a / n, a % n;
    assert a == q * n + r;
    assert q < lo ==> (q + 1) * n <= lo * n;
    assert q > hi ==> (hi + 1) * n <= q * n;
  }

  lemma QuotientIsBetween(a: int, n: int, lo: int, hi: int)
    requires n > 0 && lo * n <= a <= hi * n
    ensures lo <= Quotient(a, n) <= hi
  {
    if a >= 0 {
      DivisionIsBetween(a, n, lo, hi);
    } else {
      assert -hi * n <= -a <= -lo * n;
      DivisionIsBetween(-a, n, -hi, -lo);
    }
  }

  lemma AverageIsBetween(s: seq<int>, lo: int, hi: int)
    requires s != [] && AllWithin(s, lo, hi)
    ensures lo <= Quotient(Sum(s), |s|) <= hi
  {
    SumIsBetween(s, lo, hi);
    QuotientIsBetween(Sum(s), |s|, lo, hi);
  }

  /** calculateAvgLatencyLocked, on the slice it was given. */
  method AverageLatency(latencies: seq<int>) returns (avg: int)
    ensures latencies == [] ==> avg == 0
    ensures latencies != [] ==> avg == Quotient(Wrap64(Sum(latencies)), |latencies|)
    ensures latencies != [] && InInt64(Sum(latencies)) ==>
              forall lo, hi :: AllWithin(latencies, lo, hi) ==> lo <= avg <= hi
  {
    if |latencies| == 0 {
      return 0;
    }
    var sum := 0;
    for i := 0 to |latencies|
      invariant sum == Wrap64(Sum(latencies[..i]))
    {
      assert latencies[..i + 1][..i] == latencies[..i];
      WrapAdd(Sum(latencies[..i]), latencies[i]);
      sum := Wrap64(sum + latencies[i]);
    }
    assert latencies[..|latencies|] == latencies;
    avg := Quotient(sum, |latencies|);
    if InInt64(Sum(latencies)) {
      forall lo, hi | AllWithin(latencies, lo, hi)
        ensures lo <= avg <= hi
      {
        AverageIsBetween(latencies, lo, hi);
      }
    }
  }
}
