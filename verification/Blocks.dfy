/** The fixed-size memory of a buffer. */
module Blocks {
  import opened Bytes

  const BUFFER_SIZE: nat := 1600

  function Zeros(n: nat): (r: seq<Byte>)
    ensures |r| == n
  {
    seq(n, i => 0)
  }

  predicate AllZero(s: seq<Byte>) {
    forall i | 0 <= i < |s| :: s[i] == 0
  }

  type Block = s: seq<Byte> | |s| == BUFFER_SIZE witness Zeros(BUFFER_SIZE)

  /** What is read of s into a buffer. */
  function Cut(s: seq<Byte>): (r: seq<Byte>)
    ensures |r| <= BUFFER_SIZE
  {
    if |s| < BUFFER_SIZE then s else s[..BUFFER_SIZE]
  }

  /** A block after reading s into it. */
  function Overwritten(b: Block, s: seq<Byte>): Block {
    Cut(s) + b[|Cut(s)|..]
  }

  lemma ZerosBehind(b: Block, s: seq<Byte>)
    requires AllZero(b)
    ensures Overwritten(b, s)[..|Cut(s)|] == Cut(s) && AllZero(Overwritten(b, s)[|Cut(s)|..])
  {
    assert Overwritten(b, s)[|Cut(s)|..] == b[|Cut(s)|..];
  }

  method Zero(a: array<Byte>, n: nat)
    requires n <= a.Length
    modifies a
    ensures a[..] == Zeros(n) + old(a[n..])
  {
    var k := 0;
    while k < n
      invariant 0 <= k <= n
      invariant a[..k] == Zeros(k) && a[k..] == old(a[k..])
    {
      a[k] := 0;
      k := k + 1;
    }
    assert a[..] == a[..k] + a[k..];
  }

  /** Copy s over the front of a. */
  method CopyInto(a: array<Byte>, s: seq<Byte>)
    requires |s| <= a.Length
    modifies a
    ensures a[..] == s + old(a[|s|..])
  {
    var k := 0;
    while k < |s|
      invariant 0 <= k <= |s|
      invariant a[..k] == s[..k] && a[k..] == old(a[k..])
    {
      a[k] := s[k];
      k := k + 1;
    }
    assert a[..] == a[..k] + a[k..];
  }
}
