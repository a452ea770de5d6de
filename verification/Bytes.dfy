/** Go byte strings, big-endian integers and 64-bit wrap-around. */
module Bytes {
  type Byte = b: int | 0 <= b < 256

  /** A Go string or byte slice. */
  type Str = seq<Byte>

  const MAX_INT64: int := 0x7FFF_FFFF_FFFF_FFFF
  const TWO_64: int := 0x1_0000_0000_0000_0000

  predicate InInt64(x: int) { -MAX_INT64 - 1 <= x <= MAX_INT64 }

  /** The value an int64 holds after arithmetic whose exact result is x. */
  function Wrap64(x: int): (r: int)
    ensures InInt64(r)
    ensures InInt64(x) ==> r == x
  {
    if InInt64(x) then x else (x + MAX_INT64 + 1) % TWO_64 - MAX_INT64 - 1
  }

  /** Wrapping early or late gives the same int64. */
  lemma WrapAdd(x: int, y: int)
    ensures Wrap64(Wrap64(x) + y) == Wrap64(x + y)
  {
  }

  /** The literal text of a Go string constant. */
  function Ascii(s: string): (b: Str)
    requires forall i :: 0 <= i < |s| ==> s[i] < 128 as char
    ensures |b| == |s|
    ensures forall i :: 0 <= i < |s| ==> b[i] == s[i] as int
  {
    seq(|s|, i requires 0 <= i < |s| => s[i] as int)
  }

  /** binary.BigEndian.PutUint16 of uint16(n). */
  function PutUint16(n: nat): (b: Str)
    ensures |b| == 2
  {
    [n / 0x100 % 0x100, n % 0x100]
  }

  function Uint16(b: Str): (n: nat)
    requires |b| == 2
    ensures n < 0x1_0000
  {
    b[0] as int * 0x100 + b[1] as int
  }

  /** binary.BigEndian.PutUint32 of uint32(n): high half first. */
  function PutUint32(n: nat): (b: Str)
    ensures |b| == 4
  {
    PutUint16(n / 0x1_0000) + PutUint16(n)
  }

  function Uint32(b: Str): (n: nat)
    requires |b| == 4
    ensures n < 0x1_0000_0000
  {
    Uint16(b[..2]) * 0x1_0000 + Uint16(b[2..])
  }

  lemma ReadPut16(n: nat)
    ensures Uint16(PutUint16(n)) == n % 0x1_0000
  {
  }

  lemma PutRead16(b: Str)
    requires |b| == 2
    ensures PutUint16(Uint16(b)) == b
  {
  }

  lemma Halves(n: nat)
    ensures n % 0x1_0000_0000 == n / 0x1_0000 % 0x1_0000 * 0x1_0000 + n % 0x1_0000
  {
  }

  lemma ReadPut32(n: nat)
    ensures Uint32(PutUint32(n)) == n % 0x1_0000_0000
  {
    var p := PutUint32(n);
    assert p[..2] == PutUint16(n / 0x1_0000) && p[2..] == PutUint16(n);
    ReadPut16(n / 0x1_0000);
    ReadPut16(n);
    Halves(n);
  }

  lemma LowHalf(hi: nat, lo: nat)
    requires lo < 0x1_0000
    ensures (hi * 0x1_0000 + lo) / 0x1_0000 == hi
    ensures PutUint16(hi * 0x1_0000 + lo) == PutUint16(lo)
  {
    assert (hi * 0x1_0000 + lo) / 0x100 == hi * 0x100 + lo / 0x100;
  }

  lemma PutRead32(b: Str)
    requires |b| == 4
    ensures PutUint32(Uint32(b)) == b
  {
    LowHalf(Uint16(b[..2]), Uint16(b[2..]));
    PutRead16(b[..2]);
    PutRead16(b[2..]);
    assert b == b[..2] + b[2..];
  }

  lemma SliceOfSlice<T>(s: seq<T>, a: nat, b: nat, i: nat, j: nat)
    requires a <= b <= |s| && i <= j <= b - a
    ensures s[a..b][i..j] == s[a + i..a + j]
  {
    var t := s[a..b];
    assert forall k :: 0 <= k < j - i ==> t[i..j][k] == s[a + i + k] == s[a + i..a + j][k];
  }

  lemma Assoc<T>(a: seq<T>, b: seq<T>, c: seq<T>)
    ensures (a + b) + c == a + (b + c)
  {
  }

  /** Go's copy(out[at:], src), element by element. */
  method CopyInto<T>(out: array<T>, at: nat, src: seq<T>)
    requires at + |src| <= out.Length
    modifies out
    ensures out[..at + |src|] == old(out[..at]) + src
    ensures out[at + |src|..] == old(out[at + |src|..])
  {
    for i := 0 to |src|
      invariant forall k :: 0 <= k < i ==> out[at + k] == src[k]
      invariant forall k :: 0 <= k < at || at + i <= k < out.Length ==> out[k] == old(out[k])
    {
      out[at + i] := src[i];
    }
  }
}
