/** Who holds the buffers of a pool.  A buffer is in the pool, with a holder (a goroutine or a channel), or lost;
    nothing in this bookkeeping itself stops a buffer from being in two places or in one place twice. */
module Custody {

  /** P are the holders, B the buffers; a holder gives its buffers away oldest first. */
  datatype Ledger<!P, !B> = Ledger(pool: multiset<B>, held: map<P, seq<B>>, lost: multiset<B>, inUse: int)
  {
    function At(p: P): seq<B> {
      if p in held then held[p] else []
    }

    /** sync.Pool hands out b, pooled before or new; the counter goes up. */
    function Get(p: P, b: B): Ledger<P, B> {
      Ledger(pool - multiset{b}, held[p := At(p) + [b]], lost, inUse + 1)
    }

    /** The oldest buffer of p goes back to the pool; the counter goes down. */
    function Put(p: P): Ledger<P, B>
      requires At(p) != []
    {
      Ledger(pool + multiset{At(p)[0]}, held[p := At(p)[1..]], lost, inUse - 1)
    }

    function Move(p: P, q: P): Ledger<P, B>
      requires p != q && At(p) != []
    {
      Ledger(pool, held[p := At(p)[1..]][q := At(q) + [At(p)[0]]], lost, inUse)
    }

    /** The oldest buffer of p is referenced by nobody any more. */
    function Lose(p: P): Ledger<P, B>
      requires At(p) != []
    {
      Ledger(pool, held[p := At(p)[1..]], lost + multiset{At(p)[0]}, inUse)
    }
  }

  ghost function Total<P, B>(held: map<P, seq<B>>): multiset<B> {
    if held == map[] then multiset{} else
      var p :| p in held;
      multiset(held[p]) + Total(held - {p})
  }

  ghost function Holdings<P, B>(l: Ledger<P, B>): multiset<B> {
    l.pool + Total(l.held) + l.lost
  }

  /** No buffer is in two places or twice in one, and the counter is the number of buffers outside the pool. */
  ghost predicate Linear<P, B>(l: Ledger<P, B>) {
    && (forall b | b in Holdings(l) :: Holdings(l)[b] == 1)
    && l.inUse == |Total(l.held)| + |l.lost|
  }

  ghost predicate Empty<P, B>(l: Ledger<P, B>) {
    l.pool == multiset{} && l.held == map[] && l.lost == multiset{} && l.inUse == 0
  }

  lemma {:induction false} TotalWithout<P, B>(held: map<P, seq<B>>, p: P)
    requires p in held
    ensures Total(held) == multiset(held[p]) + Total(held - {p})
    decreases held
  {
    var q :| q in held && Total(held) == multiset(held[q]) + Total(held - {q});
    if q != p {
      TotalWithout(held - {q}, p);
      assert (held - {q})[p] == held[p];
      TotalWithout(held - {p}, q);
      assert held - {q} - {p} == held - {p} - {q};
    }
  }

  /** Giving p other buffers changes the total by the difference. */
  lemma TotalWith<P, B>(held: map<P, seq<B>>, p: P, was: seq<B>, now: seq<B>)
    requires was == if p in held then held[p] else []
    ensures Total(held[p := now]) + multiset(was) == Total(held) + multiset(now)
  {
    TotalWithout(held[p := now], p);
    assert held[p := now] - {p} == held - {p};
    if p in held {
      TotalWithout(held, p);
    } else {
      assert held - {p} == held;
    }
  }

  lemma HeadAndTail<B>(s: seq<B>)
    requires s != []
    ensures multiset(s) == multiset{s[0]} + multiset(s[1..])
  {
    assert s == [s[0]] + s[1..];
  }

  lemma Cancel<B>(a: multiset<B>, b: multiset<B>, x: multiset<B>, y: multiset<B>)
    requires a + x == b + y
    ensures x == y ==> a == b
    ensures forall z :: y == z + x ==> a == b + z
  {
    forall b' ensures a[b'] + x[b'] == b[b'] + y[b'] {
      assert (a + x)[b'] == (b + y)[b'];
    }
  }

  lemma TotalTail<P, B>(l: Ledger<P, B>, p: P)
    requires l.At(p) != []
    ensures Total(l.held[p := l.At(p)[1..]]) + multiset{l.At(p)[0]} == Total(l.held)
  {
    TotalWith(l.held, p, l.At(p), l.At(p)[1..]);
    HeadAndTail(l.At(p));
    Cancel(Total(l.held[p := l.At(p)[1..]]) + multiset{l.At(p)[0]}, Total(l.held), multiset(l.At(p)[1..]),
           multiset(l.At(p)[1..]));
  }

  lemma TotalMore<P, B>(held: map<P, seq<B>>, p: P, was: seq<B>, b: B)
    requires was == if p in held then held[p] else []
    ensures Total(held[p := was + [b]]) == Total(held) + multiset{b}
  {
    TotalWith(held, p, was, was + [b]);
    assert multiset(was + [b]) == multiset{b} + multiset(was);
    Cancel(Total(held[p := was + [b]]), Total(held), multiset(was), multiset(was + [b]));
  }

  lemma SameHoldings<P, B>(l: Ledger<P, B>, m: Ledger<P, B>)
    requires Linear(l) && Holdings(m) == Holdings(l) && m.inUse == |Total(m.held)| + |m.lost|
    ensures Linear(m)
  {
  }

  lemma Exchange<B>(pool: multiset<B>, total: multiset<B>, b: B)
    ensures (pool - multiset{b}) + (total + multiset{b}) ==
            if b in pool then pool + total else pool + total + multiset{b}
  {
    if b !in pool {
      assert pool - multiset{b} == pool;
    }
  }

  lemma OneMore<B>(m: multiset<B>, b: B)
    requires b !in m && forall c | c in m :: m[c] == 1
    ensures forall c | c in m + multiset{b} :: (m + multiset{b})[c] == 1
  {
  }

  lemma GetKeeps<P, B>(l: Ledger<P, B>, p: P, b: B)
    requires Linear(l) && (b in l.pool || b !in Holdings(l))
    ensures Linear(l.Get(p, b))
    ensures Holdings(l.Get(p, b)) == if b in l.pool then Holdings(l) else Holdings(l) + multiset{b}
  {
    TotalMore(l.held, p, l.At(p), b);
    Exchange(l.pool, Total(l.held), b);
    var m := l.Get(p, b);
    if b in l.pool {
      assert Holdings(m) == Holdings(l);
      SameHoldings(l, m);
    } else {
      assert Holdings(m) == Holdings(l) + multiset{b};
      OneMore(Holdings(l), b);
    }
  }

  /** Whatever returns, passes on or loses a buffer keeps it held exactly once. */
  lemma PutKeeps<P, B>(l: Ledger<P, B>, p: P)
    requires Linear(l) && l.At(p) != []
    ensures Linear(l.Put(p)) && Holdings(l.Put(p)) == Holdings(l)
  {
    TotalTail(l, p);
    assert Holdings(l.Put(p)) == Holdings(l);
    SameHoldings(l, l.Put(p));
  }

  lemma LoseKeeps<P, B>(l: Ledger<P, B>, p: P)
    requires Linear(l) && l.At(p) != []
    ensures Linear(l.Lose(p)) && Holdings(l.Lose(p)) == Holdings(l)
  {
    TotalTail(l, p);
    assert Holdings(l.Lose(p)) == Holdings(l);
    SameHoldings(l, l.Lose(p));
  }

  lemma MoveKeeps<P, B>(l: Ledger<P, B>, p: P, q: P)
    requires Linear(l) && p != q && l.At(p) != []
    ensures Linear(l.Move(p, q)) && Holdings(l.Move(p, q)) == Holdings(l)
  {
    TotalTail(l, p);
    TotalMore(l.held[p := l.At(p)[1..]], q, l.At(q), l.At(p)[0]);
    assert Holdings(l.Move(p, q)) == Holdings(l);
    SameHoldings(l, l.Move(p, q));
  }

  lemma HeldIsHolding<P, B>(l: Ledger<P, B>, p: P, b: B)
    requires b in l.At(p)
    ensures b in Total(l.held)
  {
    TotalWithout(l.held, p);
  }

  lemma Twice<B>(s: seq<B>, i: nat, j: nat)
    requires i < |s| && j < |s| && i != j
    ensures multiset(s)[s[i]] >= 2 || s[i] != s[j]
  {
    var lo, hi := if i < j then i else j, if i < j then j else i;
    assert s == s[..hi] + s[hi..];
    assert s[lo] in s[..hi] && s[hi] in s[hi..];
    assert multiset(s) == multiset(s[..hi]) + multiset(s[hi..]);
  }

  /** A buffer with one holder is with no other, not in the pool and not lost. */
  lemma OneHolder<P, B>(l: Ledger<P, B>, p: P, i: nat)
    requires Linear(l) && i < |l.At(p)|
    ensures l.At(p)[i] !in l.pool && l.At(p)[i] !in l.lost
    ensures forall q, j | 0 <= j < |l.At(q)| && (q != p || j != i) :: l.At(q)[j] != l.At(p)[i]
  {
    var b := l.At(p)[i];
    HeldIsHolding(l, p, b);
    assert Holdings(l)[b] == 1;
    forall q, j | 0 <= j < |l.At(q)| && (q != p || j != i) ensures l.At(q)[j] != b {
      TotalWithout(l.held, p);
      if q != p {
        TotalWithout(l.held - {p}, q);
        assert multiset(l.At(q))[l.At(q)[j]] > 0 && multiset(l.At(p))[b] > 0;
      } else {
        Twice(l.At(p), i, j);
      }
    }
  }

  // ---------------------------------------------------------------------------------------------------------
  // What the buffers contain
  // ---------------------------------------------------------------------------------------------------------

  datatype Store<!P, !B, C> = Store(ledger: Ledger<P, B>, contents: map<B, C>)
  {
    /** The buffer that p gives away next. */
    function Next(p: P): B
      requires ledger.At(p) != []
    {
      ledger.At(p)[0]
    }

    function Fill(p: P, c: C): Store<P, B, C>
      requires ledger.At(p) != []
    {
      Store(ledger, contents[Next(p) := c])
    }

    function Put(p: P, c: C): Store<P, B, C>
      requires ledger.At(p) != []
    {
      Store(ledger.Put(p), contents[Next(p) := c])
    }

    function Move(p: P, q: P, c: C): Store<P, B, C>
      requires p != q && ledger.At(p) != []
    {
      Store(ledger.Move(p, q), contents[Next(p) := c])
    }

    function Lose(p: P, c: C): Store<P, B, C>
      requires ledger.At(p) != []
    {
      Store(ledger.Lose(p), contents[Next(p) := c])
    }

    function Get(p: P, b: B, made: C): Store<P, B, C> {
      Store(ledger.Get(p, b), if b in contents then contents else contents[b := made])
    }

    /** The pool may give up a buffer at any time. */
    function Collect(b: B): Store<P, B, C> {
      Store(ledger.(pool := ledger.pool - multiset{b}), contents)
    }
  }

  /** Buffers are held once, the pooled ones are clean and each holder finds its own ones fit for it. */
  ghost predicate Kept<P, B, C>(s: Store<P, B, C>, clean: C -> bool, fit: (P, C) -> bool) {
    && Linear(s.ledger)
    && (forall b | b in Holdings(s.ledger) :: b in s.contents)
    && (forall b | b in s.ledger.pool :: b in s.contents && clean(s.contents[b]))
    && (forall p | p in s.ledger.held :: forall b | b in s.ledger.held[p] ::
          b in s.contents && fit(p, s.contents[b]))
  }

  /** Only b has changed, to c: it is enough that b still fits where it is now. */
  lemma OneChanged<P, B, C>(s: Store<P, B, C>, t: Store<P, B, C>, clean: C -> bool, fit: (P, C) -> bool, b: B, c: C)
    requires Kept(s, clean, fit)
    requires Linear(t.ledger) && (forall x | x in Holdings(t.ledger) :: x in Holdings(s.ledger) || x == b)
    requires t.contents == s.contents[b := c]
    requires forall x | x in t.ledger.pool :: if x == b then clean(c) else x in s.ledger.pool
    requires forall p | p in t.ledger.held :: forall x | x in t.ledger.held[p] ::
               if x == b then fit(p, c) else x in s.ledger.At(p)
    ensures Kept(t, clean, fit)
  {
  }

  lemma Alone<P, B>(l: Ledger<P, B>, p: P)
    requires Linear(l) && l.At(p) != []
    ensures l.At(p)[0] !in l.pool && l.At(p)[0] !in l.At(p)[1..]
    ensures forall q | q != p :: l.At(p)[0] !in l.At(q)
  {
    OneHolder(l, p, 0);
    forall j | 1 <= j < |l.At(p)| ensures l.At(p)[j] != l.At(p)[0] {
    }
  }

  lemma FillKeeps<P, B, C>(s: Store<P, B, C>, clean: C -> bool, fit: (P, C) -> bool, p: P, c: C)
    requires Kept(s, clean, fit) && s.ledger.At(p) != [] && fit(p, c)
    ensures Kept(s.Fill(p, c), clean, fit)
  {
    Alone(s.ledger, p);
    forall q | q in s.ledger.held && s.Next(p) in s.ledger.held[q] ensures q == p {
      assert s.ledger.At(q) == s.ledger.held[q];
    }
    OneChanged(s, s.Fill(p, c), clean, fit, s.Next(p), c);
  }

  lemma StorePutKeeps<P, B, C>(s: Store<P, B, C>, clean: C -> bool, fit: (P, C) -> bool, p: P, c: C)
    requires Kept(s, clean, fit) && s.ledger.At(p) != [] && clean(c)
    ensures Kept(s.Put(p, c), clean, fit)
  {
    Alone(s.ledger, p);
    PutKeeps(s.ledger, p);
    OneChanged(s, s.Put(p, c), clean, fit, s.Next(p), c);
  }

  lemma StoreMoveKeeps<P, B, C>(s: Store<P, B, C>, clean: C -> bool, fit: (P, C) -> bool, p: P, q: P, c: C)
    requires Kept(s, clean, fit) && p != q && s.ledger.At(p) != [] && fit(q, c)
    ensures Kept(s.Move(p, q, c), clean, fit)
  {
    Alone(s.ledger, p);
    MoveKeeps(s.ledger, p, q);
    OneChanged(s, s.Move(p, q, c), clean, fit, s.Next(p), c);
  }

  lemma StoreLoseKeeps<P, B, C>(s: Store<P, B, C>, clean: C -> bool, fit: (P, C) -> bool, p: P, c: C)
    requires Kept(s, clean, fit) && s.ledger.At(p) != []
    ensures Kept(s.Lose(p, c), clean, fit)
  {
    Alone(s.ledger, p);
    LoseKeeps(s.ledger, p);
    OneChanged(s, s.Lose(p, c), clean, fit, s.Next(p), c);
  }

  lemma OnlyGrowsBy<P, B>(l: Ledger<P, B>, p: P, b: B)
    requires forall q :: b !in l.At(q)
    ensures forall q | q in l.Get(p, b).held :: forall x | x in l.Get(p, b).held[q] ::
              if x == b then q == p else x in l.At(q)
  {
    forall q, x | q in l.Get(p, b).held && x in l.Get(p, b).held[q] ensures if x == b then q == p else x in l.At(q) {
      assert x in l.At(q) || (q == p && x == b);
    }
  }

  /** A buffer that is pooled or new is with no holder, and it is pooled only once. */
  lemma Elsewhere<P, B, C>(s: Store<P, B, C>, clean: C -> bool, fit: (P, C) -> bool, b: B)
    requires Kept(s, clean, fit) && (b in s.ledger.pool || b !in s.contents)
    ensures forall q :: b !in s.ledger.At(q)
    ensures b !in s.ledger.pool - multiset{b}
  {
    assert b in s.ledger.pool ==> Holdings(s.ledger)[b] == 1;
    forall q ensures b !in s.ledger.At(q) {
      if b in s.ledger.At(q) {
        HeldIsHolding(s.ledger, q, b);
      }
    }
  }

  lemma GotKeeps<P, B, C>(
      s: Store<P, B, C>, t: Store<P, B, C>, clean: C -> bool, fit: (P, C) -> bool, p: P, b: B, c: C)
    requires Kept(s, clean, fit) && (b in s.ledger.pool || b !in s.contents)
    requires b !in s.ledger.pool - multiset{b} && forall q :: b !in s.ledger.At(q)
    requires t == Store(s.ledger.Get(p, b), s.contents[b := c])
    requires fit(p, c)
    ensures Kept(t, clean, fit)
  {
    GetKeeps(s.ledger, p, b);
    OnlyGrowsBy(s.ledger, p, b);
    OneChanged(s, t, clean, fit, b, c);
  }

  lemma StoreGetKeeps<P, B, C>(s: Store<P, B, C>, clean: C -> bool, fit: (P, C) -> bool, p: P, b: B, made: C)
    requires Kept(s, clean, fit) && (b in s.ledger.pool || b !in s.contents)
    requires forall c | clean(c) :: fit(p, c)
    requires clean(made)
    ensures Kept(s.Get(p, b, made), clean, fit)
  {
    Elsewhere(s, clean, fit, b);
    if b in s.ledger.pool {
      var c := s.contents[b];
      assert s.contents[b := c] == s.contents;
      GotKeeps(s, s.Get(p, b, made), clean, fit, p, b, c);
    } else {
      GotKeeps(s, s.Get(p, b, made), clean, fit, p, b, made);
    }
  }

  lemma CollectKeeps<P, B, C>(s: Store<P, B, C>, clean: C -> bool, fit: (P, C) -> bool, b: B)
    requires Kept(s, clean, fit)
    ensures Kept(s.Collect(b), clean, fit)
  {
    var m := s.Collect(b).ledger;
    assert Holdings(m) <= Holdings(s.ledger);
    forall x | x in Holdings(m) ensures Holdings(m)[x] == 1 {
      assert Holdings(m)[x] <= Holdings(s.ledger)[x];
    }
  }

  function Part<P, B>(held: map<P, seq<B>>, some: set<P>): map<P, seq<B>> {
    map p | p in held && p in some :: held[p]
  }

  lemma PartWithout<P, B>(held: map<P, seq<B>>, some: set<P>, q: P)
    requires q in held
    ensures Total(Part(held, some)) + Total(held - some) ==
            multiset(held[q]) + (Total(Part(held - {q}, some)) + Total(held - {q} - some))
  {
    if q in some {
      assert Part(held, some) - {q} == Part(held - {q}, some);
      assert held - {q} - some == held - some;
      TotalWithout(Part(held, some), q);
    } else {
      assert Part(held, some) == Part(held - {q}, some);
      assert held - {q} - some == held - some - {q};
      TotalWithout(held - some, q);
    }
  }

  /** What is held is what `some` of the holders hold and what the others hold. */
  lemma {:induction false} TotalSplit<P, B>(held: map<P, seq<B>>, some: set<P>)
    ensures Total(held) == Total(Part(held, some)) + Total(held - some)
    decreases held
  {
    if held == map[] {
      assert Part(held, some) == map[];
      assert held - some == map[];
    } else {
      var q :| q in held;
      TotalSplit(held - {q}, some);
      TotalWithout(held, q);
      PartWithout(held, some, q);
    }
  }

  // ---------------------------------------------------------------------------------------------------------
  // What it means
  // ---------------------------------------------------------------------------------------------------------

  /** Each buffer that is held is at one place in one holder, each pooled one is clean and pooled once, none is both
      or lost besides; and the buffers in use are those held and as many as were dropped. */
  ghost predicate InOrder<P, B, C>(s: Store<P, B, C>, clean: C -> bool, dropped: nat) {
    var l := s.ledger;
    && (forall p, q, i, j | p in l.held && q in l.held && 0 <= i < |l.held[p]| && 0 <= j < |l.held[q]| ::
          l.held[p][i] == l.held[q][j] ==> p == q && i == j)
    && (forall p, b | p in l.held && b in l.held[p] :: b !in l.pool && b !in l.lost)
    && (forall b | b in l.pool :: l.pool[b] == 1 && b !in l.lost && b in s.contents && clean(s.contents[b]))
    && |l.lost| == dropped && l.inUse == |Total(l.held)| + dropped
  }

  lemma HeldApart<P, B>(l: Ledger<P, B>)
    requires Linear(l)
    ensures forall p, q, i, j | p in l.held && q in l.held && 0 <= i < |l.held[p]| && 0 <= j < |l.held[q]| ::
              l.held[p][i] == l.held[q][j] ==> p == q && i == j
    ensures forall p, b | p in l.held && b in l.held[p] :: b !in l.pool && b !in l.lost
  {
    forall p, q, i, j | p in l.held && q in l.held && 0 <= i < |l.held[p]| && 0 <= j < |l.held[q]|
                        && l.held[p][i] == l.held[q][j]
      ensures p == q && i == j
    {
      OneHolder(l, p, i);
      assert l.At(p) == l.held[p] && l.At(q) == l.held[q];
    }
    forall p, b | p in l.held && b in l.held[p] ensures b !in l.pool && b !in l.lost {
      var i :| 0 <= i < |l.held[p]| && l.held[p][i] == b;
      OneHolder(l, p, i);
    }
  }

  lemma KeptIsInOrder<P, B, C>(s: Store<P, B, C>, clean: C -> bool, fit: (P, C) -> bool, dropped: nat)
    requires Kept(s, clean, fit) && |s.ledger.lost| == dropped
    ensures InOrder(s, clean, dropped)
  {
    HeldApart(s.ledger);
    forall b | b in s.ledger.pool ensures s.ledger.pool[b] == 1 && b !in s.ledger.lost {
      assert Holdings(s.ledger)[b] == 1;
    }
  }

  /** The buffers in use are those that `some` of the holders have (the channels, say), those that the others have, and
      the dropped ones. */
  lemma CounterBalances<P, B, C>(s: Store<P, B, C>, clean: C -> bool, dropped: nat, some: set<P>)
    requires InOrder(s, clean, dropped)
    ensures s.ledger.inUse == |Total(Part(s.ledger.held, some))| + |Total(s.ledger.held - some)| + dropped
  {
    TotalSplit(s.ledger.held, some);
  }

  // ---------------------------------------------------------------------------------------------------------
  // One buffer moves
  // ---------------------------------------------------------------------------------------------------------

  /** Only these two holders have gained or lost a buffer. */
  ghost predicate OthersKeep<P, B>(l: Ledger<P, B>, m: Ledger<P, B>, p: P, q: P) {
    forall x | x in l.held.Keys + m.held.Keys :: x != p && x != q ==> m.At(x) == l.At(x)
  }

  /** The oldest buffer of p is the newest of q, and nothing else has moved. */
  ghost predicate Passed<P, B>(l: Ledger<P, B>, m: Ledger<P, B>, p: P, q: P, b: B) {
    && l.At(p) == [b] + m.At(p) && m.At(q) == l.At(q) + [b] && OthersKeep(l, m, p, q)
    && m.pool == l.pool && m.lost == l.lost && m.inUse == l.inUse
  }

  /** The oldest buffer of p is in the pool, and nothing else has moved. */
  ghost predicate Returned<P, B>(l: Ledger<P, B>, m: Ledger<P, B>, p: P, b: B) {
    && l.At(p) == [b] + m.At(p) && OthersKeep(l, m, p, p)
    && m.pool == l.pool + multiset{b} && m.lost == l.lost && m.inUse == l.inUse - 1
  }

  /** The oldest buffer of p is gone for good. */
  ghost predicate Gone<P, B>(l: Ledger<P, B>, m: Ledger<P, B>, p: P, b: B) {
    && l.At(p) == [b] + m.At(p) && OthersKeep(l, m, p, p)
    && m.pool == l.pool && m.lost == l.lost + multiset{b} && m.inUse == l.inUse
  }

  /** The buffer is with p, which had none, and nothing else has moved but perhaps from the pool. */
  ghost predicate Obtained<P, B>(l: Ledger<P, B>, m: Ledger<P, B>, p: P, b: B) {
    && l.At(p) == [] && m.At(p) == [b] && OthersKeep(l, m, p, p)
    && m.pool == l.pool - multiset{b} && m.lost == l.lost && m.inUse == l.inUse + 1
  }
}
