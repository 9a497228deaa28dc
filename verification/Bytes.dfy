/** Bytes and fixed-width big-endian numbers. */
module Bytes {

  type Byte = x: int | 0 <= x < 256

  function Pow256(n: nat): (r: nat)
    ensures r >= 1
  {
    if n == 0 then 1 else 256 * Pow256(n - 1)
  }

  /** The last n big-endian bytes of x. */
  function BigEndian(x: nat, n: nat): (r: seq<Byte>)
    ensures |r| == n
    decreases n
  {
    if n == 0 then [] else BigEndian(x / 256, n - 1) + [x % 256]
  }

  function Number(s: seq<Byte>): (r: nat)
    ensures r < Pow256(|s|)
  {
    if s == [] then 0 else Number(s[..|s| - 1]) * 256 + s[|s| - 1]
  }

  lemma {:induction false} NumberOfBytes(x: nat, n: nat)
    requires x < Pow256(n)
    ensures Number(BigEndian(x, n)) == x
    decreases n
  {
    if n > 0 {
      NumberOfBytes(x / 256, n - 1);
      assert BigEndian(x, n)[..n - 1] == BigEndian(x / 256, n - 1);
    }
  }

  lemma {:induction false} BytesOfNumber(s: seq<Byte>)
    ensures BigEndian(Number(s), |s|) == s
  {
    if s != [] {
      BytesOfNumber(s[..|s| - 1]);
      assert Number(s) / 256 == Number(s[..|s| - 1]) && Number(s) % 256 == s[|s| - 1];
    }
  }

  lemma Scaled(m: nat, a: nat, b: nat)
    ensures a <= b ==> m * a <= m * b
  {
  }

  lemma QuotientIs(y: nat, m: nat, q: nat, r: nat)
    requires y == m * q + r && r < m
    ensures y / m == q
  {
    var k := y / m;
    assert y == m * k + y % m;
    Scaled(m, k + 1, q);
    Scaled(m, q + 1, k);
  }

  lemma DivideTwice(x: nat, m: nat)
    requires m >= 1
    ensures x / 256 / m == x / (256 * m)
  {
    var q := x / (256 * m);
    var r := x % (256 * m);
    assert x == 256 * m * q + r;
    assert x / 256 == m * q + r / 256 by {
      assert 256 * m * q == 256 * (m * q);
    }
    assert r / 256 < m;
    QuotientIs(x / 256, m, q, r / 256);
  }

  /** Network byte order: the first byte is the most significant one. */
  lemma {:induction false} ByteOrder(x: nat, n: nat, i: nat)
    requires i < n
    ensures BigEndian(x, n)[i] == x / Pow256(n - 1 - i) % 256
    decreases n
  {
    if i < n - 1 {
      ByteOrder(x / 256, n - 1, i);
      DivideTwice(x, Pow256(n - 2 - i));
    }
  }

  /** Write the last n big-endian bytes of x in place. */
  method PutNumber(b: array<Byte>, at: nat, x: nat, n: nat)
    requires at + n <= b.Length
    modifies b
    ensures b[..] == old(b[..at]) + BigEndian(x, n) + old(b[at + n..])
  {
    var k, rest := n, x;
    while k > 0
      invariant 0 <= k <= n
      invariant BigEndian(rest, k) + b[at + k..at + n] == BigEndian(x, n)
      invariant b[..at + k] == old(b[..at + k]) && b[at + n..] == old(b[at + n..])
    {
      k := k - 1;
      b[at + k] := rest % 256;
      assert b[at + k..at + n] == [rest % 256] + b[at + k + 1..at + n];
      rest := rest / 256;
    }
    assert b[..] == b[..at] + b[at..at + n] + b[at + n..];
  }
}
