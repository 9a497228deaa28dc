/** When the update streams get stuck.  Clients come and go as they like; everything else a stream does is internal, and
    the question is whether some stream that is connecting or disconnecting can take its next internal step. */
module StreamProgress {
  import opened Options
  import opened UpdateStream

  predicate Internal(a: Action) {
    !a.Open? && !a.Hangup?
  }

  /** Something is unfinished and no internal step is possible, not even one that crashes. */
  ghost predicate Stuck(s: Streams)
    requires s.Shaped()
  {
    && (exists i | i in s.phases :: !s.phases[i].Settled())
    && (forall a | Internal(a) :: Step(s, a).Blocked?)
  }

  /** `i` is blocked sending its CONNECT to `t`. */
  predicate Waits(s: Streams, i: Id, t: Id) {
    i in s.phases && s.phases[i].Announcing? && s.phases[i].walk.target == Some(t)
  }

  predicate Distinct(xs: seq<Id>) {
    forall i, j | 0 <= i < j < |xs| :: xs[i] != xs[j]
  }

  function After(c: seq<Id>, k: nat): nat
    requires k < |c|
  {
    if k == |c| - 1 then 0 else k + 1
  }

  /** Each stream of the cycle is blocked sending its CONNECT to the next one, the last one to the first. */
  predicate Cycle(s: Streams, c: seq<Id>) {
    && |c| >= 2 && Distinct(c)
    && forall k | 0 <= k < |c| :: Waits(s, c[k], c[After(c, k)])
  }

  // ---------------------------------------------------------------------------------------------------------
  // Stuck means a cycle
  // ---------------------------------------------------------------------------------------------------------

  /** The internal step that a stream outside its loop takes next; a walk hands over, goes on or ends. */
  function Next(s: Streams, i: Id, pick: Id): Action
    requires i in s.phases
  {
    match s.phases[i]
    case Marked => Register(i)
    case Registered => StartAnnounce(i)
    case Announced => List(i, true)
    case Listed(_) => SendInit(i, true)
    case Leaving => Unregister(i)
    case Unregistered => Unmark(i)
    case Unmarked => StartDepart(i)
    case Announcing(w) =>
      if w.target.Some? then Handover(i) else if w.must <= w.visited then FinishAnnounce(i) else Pick(i, pick)
    case Departing(w) =>
      if w.target.Some? then Handover(i) else if w.must <= w.visited then FinishDepart(i) else Pick(i, pick)
    case Idle | Looping => Open(i)
  }

  lemma WalkCanGoOn(s: Streams, i: Id)
    requires Inv(s) && i in s.phases && s.phases[i].Walking() && s.phases[i].walk.target.None?
    ensures exists a :: Internal(a) && Step(s, a).Ok?
  {
    var w := s.phases[i].walk;
    assert WalkInv(s, i, w);
    var pick := 0;
    if !(w.must <= w.visited) {
      pick :| pick in w.must && pick !in w.visited;
    }
    var a := Next(s, i, pick);
    assert Internal(a) && Step(s, a).Ok?;
  }

  lemma PhaseGoesOn(s: Streams, i: Id)
    requires s.Shaped() && i in s.phases && !s.phases[i].Settled() && !s.phases[i].Walking()
    ensures exists a :: Internal(a) && !Step(s, a).Blocked?
  {
    assert Internal(Next(s, i, 0)) && !Step(s, Next(s, i, 0)).Blocked?;
  }

  /** A stream that cannot go on is in the middle of a send to a stream that is not in its loop. */
  lemma BlockedOnSend(s: Streams, i: Id)
    requires Inv(s) && i in s.phases && !s.phases[i].Settled()
    requires forall a | Internal(a) :: Step(s, a).Blocked?
    ensures s.phases[i].Walking() && s.phases[i].walk.target.Some?
    ensures var t := s.phases[i].walk.target.value;
            t != i && t in s.phases && s.phases[t].HasChannel() && !s.phases[t].Looping?
  {
    if !s.phases[i].Walking() {
      PhaseGoesOn(s, i);
    } else if s.phases[i].walk.target.None? {
      WalkCanGoOn(s, i);
    } else {
      assert WalkInv(s, i, s.phases[i].walk);
      assert Internal(Handover(i)) && Step(s, Handover(i)).Blocked?;
    }
  }

  /** The receiver it waits for is itself connecting, and blocked sending its CONNECT. */
  lemma BlockedOnAnnouncer(s: Streams, i: Id)
    requires Inv(s) && i in s.phases && !s.phases[i].Settled()
    requires forall a | Internal(a) :: Step(s, a).Blocked?
    ensures s.phases[i].Walking() && s.phases[i].walk.target.Some?
    ensures var t := s.phases[i].walk.target.value;
            t != i && t in s.phases && s.phases[t].Announcing? && s.phases[t].walk.target.Some?
  {
    BlockedOnSend(s, i);
    BlockedOnSend(s, s.phases[i].walk.target.value);
  }

  lemma {:induction false} DistinctBounded(xs: seq<Id>, ids: set<Id>)
    requires Distinct(xs) && forall x | x in xs :: x in ids
    ensures |xs| <= |ids|
    decreases |xs|
  {
    if xs != [] {
      var last, rest := xs[|xs| - 1], xs[..|xs| - 1];
      assert forall x | x in rest :: x in ids - {last};
      DistinctBounded(rest, ids - {last});
    }
  }

  lemma Closes(s: Streams, path: seq<Id>, m: nat)
    requires Distinct(path) && m < |path| - 1
    requires forall k | 0 <= k < |path| - 1 :: Waits(s, path[k], path[k + 1])
    requires Waits(s, path[|path| - 1], path[m])
    ensures Cycle(s, path[m..])
  {
    var c := path[m..];
    forall k | 0 <= k < |c| ensures Waits(s, c[k], c[After(c, k)]) {
      assert c[k] == path[m + k];
    }
  }

  /** Following the sends from a path of blocked streams leads back to it. */
  lemma {:induction false} PathCloses(s: Streams, path: seq<Id>) returns (c: seq<Id>)
    requires Inv(s) && forall a | Internal(a) :: Step(s, a).Blocked?
    requires path != [] && Distinct(path)
    requires forall k | 0 <= k < |path| - 1 :: Waits(s, path[k], path[k + 1])
    requires forall x | x in path :: x in s.phases && s.phases[x].Announcing?
    ensures Cycle(s, c)
    decreases |s.phases.Keys| - |path|
  {
    DistinctBounded(path, s.phases.Keys);
    var last := path[|path| - 1];
    BlockedOnAnnouncer(s, last);
    var t := s.phases[last].walk.target.value;
    if t in path {
      var m :| 0 <= m < |path| && path[m] == t;
      Closes(s, path, m);
      c := path[m..];
    } else {
      DistinctBounded(path + [t], s.phases.Keys);
      c := PathCloses(s, path + [t]);
    }
  }

  /** In every reachable state in which something is unfinished and nothing can go on, some streams that are connecting
      wait for each other in a cycle. */
  lemma StuckMeansCycle(s: Streams, actions: seq<Action>) returns (c: seq<Id>)
    requires Initial(s) && Run(s, actions).Some? && Stuck(Run(s, actions).value)
    ensures Cycle(Run(s, actions).value, c)
  {
    InitialHolds(s);
    RunKeepsInv(s, actions);
    var t := Run(s, actions).value;
    var i :| i in t.phases && !t.phases[i].Settled();
    BlockedOnAnnouncer(t, i);
    c := PathCloses(t, [t.phases[i].walk.target.value]);
  }

  lemma CycleHasTwo(s: Streams, c: seq<Id>)
    requires Cycle(s, c)
    ensures exists i, j | i in s.phases && j in s.phases :: i != j && s.phases[i].Announcing? && s.phases[j].Announcing?
  {
    assert Waits(s, c[0], c[After(c, 0)]) && Waits(s, c[1], c[After(c, 1)]);
  }

  /** Hence the controller is never stuck while at most one stream is announcing itself. */
  lemma SerialConnectsNeverStuck(s: Streams, actions: seq<Action>)
    requires Initial(s) && Run(s, actions).Some?
    requires var t := Run(s, actions).value;
             forall i, j | i in t.phases && j in t.phases && t.phases[i].Announcing? && t.phases[j].Announcing? ::
               i == j
    ensures !Stuck(Run(s, actions).value)
  {
    if Stuck(Run(s, actions).value) {
      var c := StuckMeansCycle(s, actions);
      CycleHasTwo(Run(s, actions).value, c);
    }
  }

  // ---------------------------------------------------------------------------------------------------------
  // A cycle is for good
  // ---------------------------------------------------------------------------------------------------------

  /** A stream stays blocked for as long as its receiver is itself announcing. */
  lemma WaitStays(s: Streams, i: Id, t: Id, a: Action)
    requires s.Shaped() && Waits(s, i, t) && t in s.phases && s.phases[t].Announcing? && Step(s, a).Ok?
    ensures Waits(Step(s, a).next, i, t)
  {
  }

  /** No step of any stream, and no client that comes or goes, breaks a cycle. */
  lemma CycleStays(s: Streams, c: seq<Id>, a: Action)
    requires s.Shaped() && Cycle(s, c) && Step(s, a).Ok?
    ensures Cycle(Step(s, a).next, c)
  {
    var t := Step(s, a).next;
    forall k | 0 <= k < |c|
      ensures Waits(t, c[k], c[After(c, k)])
    {
      assert Waits(s, c[After(c, k)], c[After(c, After(c, k))]);
      WaitStays(s, c[k], c[After(c, k)], a);
    }
  }

  lemma {:induction false} CycleIsForever(s: Streams, c: seq<Id>, actions: seq<Action>)
    requires s.Shaped() && Cycle(s, c) && Run(s, actions).Some?
    ensures Cycle(Run(s, actions).value, c)
    decreases |actions|
  {
    if actions != [] {
      CycleStays(s, c, actions[0]);
      CycleIsForever(Step(s, actions[0]).next, c, actions[1..]);
    }
  }

  // ---------------------------------------------------------------------------------------------------------
  // Left to itself, the controller comes to rest
  // ---------------------------------------------------------------------------------------------------------

  /** How many steps a walk over n peers can still take. */
  function WalkRank(w: Walk, ids: set<Id>): nat {
    2 * |ids - w.visited| + if w.target.Some? then 0 else 1
  }

  /** How many internal steps a stream can still take before it loops or is idle. */
  function Rank(phase: Phase, ids: set<Id>): nat {
    var n := |ids|;
    match phase
    case Idle | Looping => 0
    case Departing(w) => 1 + WalkRank(w, ids)
    case Unmarked => 2 * n + 3
    case Unregistered => 2 * n + 4
    case Leaving => 2 * n + 5
    case Listed(_) => 2 * n + 6
    case Announced => 2 * n + 7
    case Announcing(w) => 2 * n + 8 + WalkRank(w, ids)
    case Registered => 4 * n + 10
    case Marked => 4 * n + 11
  }

  ghost function Total(ids: set<Id>, phases: map<Id, Phase>, all: set<Id>): nat
    requires ids <= phases.Keys
  {
    if ids == {} then 0
    else
      var i :| i in ids;
      Rank(phases[i], all) + Total(ids - {i}, phases, all)
  }

  lemma {:induction false} TotalSplit(ids: set<Id>, phases: map<Id, Phase>, all: set<Id>, k: Id)
    requires ids <= phases.Keys && k in ids
    ensures Total(ids, phases, all) == Rank(phases[k], all) + Total(ids - {k}, phases, all)
    decreases |ids|
  {
    var i :| i in ids && Total(ids, phases, all) == Rank(phases[i], all) + Total(ids - {i}, phases, all);
    if i != k {
      TotalSplit(ids - {i}, phases, all, k);
      TotalSplit(ids - {k}, phases, all, i);
      assert ids - {i} - {k} == ids - {k} - {i};
    }
  }

  lemma {:induction false} TotalSame(ids: set<Id>, before: map<Id, Phase>, after: map<Id, Phase>, all: set<Id>)
    requires ids <= before.Keys && ids <= after.Keys
    requires forall i | i in ids :: Rank(before[i], all) == Rank(after[i], all)
    ensures Total(ids, before, all) == Total(ids, after, all)
    decreases |ids|
  {
    if ids != {} {
      var i :| i in ids;
      TotalSplit(ids, before, all, i);
      TotalSplit(ids, after, all, i);
      TotalSame(ids - {i}, before, after, all);
    }
  }

  /** A walk that visits one more channel, or settles on its next one, has less to do. */
  lemma WalkGoesOn(w: Walk, ids: set<Id>, t: Id)
    requires t in ids && t !in w.visited
    ensures |ids - (w.visited + {t})| == |ids - w.visited| - 1
  {
    assert ids - (w.visited + {t}) == (ids - w.visited) - {t};
  }

  lemma WalkRankFalls(s: Streams, a: Action)
    requires Inv(s) && Internal(a) && Step(s, a).Ok? && s.phases[a.i].Walking()
    ensures a.i in Step(s, a).next.phases
    ensures Rank(Step(s, a).next.phases[a.i], s.phases.Keys) < Rank(s.phases[a.i], s.phases.Keys)
  {
    if a.Handover? {
      var w := s.phases[a.i].walk;
      assert WalkInv(s, a.i, w);
      WalkGoesOn(w, s.phases.Keys, w.target.value);
    }
  }

  /** The other phases follow each other in the order of their ranks. */
  lemma PhaseRankFalls(s: Streams, a: Action)
    requires s.Shaped() && Internal(a) && Step(s, a).Ok? && a.i in s.phases && !s.phases[a.i].Walking()
    ensures a.i in Step(s, a).next.phases
    ensures Rank(Step(s, a).next.phases[a.i], s.phases.Keys) < Rank(s.phases[a.i], s.phases.Keys)
  {
    assert s.phases.Keys - {} == s.phases.Keys;
  }

  lemma OwnRankFalls(s: Streams, a: Action)
    requires Inv(s) && Internal(a) && Step(s, a).Ok?
    ensures a.i in Step(s, a).next.phases
    ensures Rank(Step(s, a).next.phases[a.i], s.phases.Keys) < Rank(s.phases[a.i], s.phases.Keys)
  {
    if s.phases[a.i].Walking() {
      WalkRankFalls(s, a);
    } else {
      PhaseRankFalls(s, a);
    }
  }

  lemma OtherRanksStay(s: Streams, a: Action, i: Id)
    requires s.Shaped() && Step(s, a).Ok? && i in s.phases && i != a.i
    ensures i in Step(s, a).next.phases
    ensures Rank(Step(s, a).next.phases[i], s.phases.Keys) == Rank(s.phases[i], s.phases.Keys)
  {
    if !a.Unregister? {
      assert Step(s, a).next.phases[i] == s.phases[i];
    }
  }

  /** The internal steps still to be taken. */
  ghost function Remaining(s: Streams): nat {
    Total(s.phases.Keys, s.phases, s.phases.Keys)
  }

  lemma StepDecreases(s: Streams, a: Action)
    requires Inv(s) && Internal(a) && Step(s, a).Ok?
    ensures Remaining(Step(s, a).next) < Remaining(s)
  {
    var t, ids := Step(s, a).next, s.phases.Keys;
    StepShaped(s, a);
    OwnRankFalls(s, a);
    forall i | i in ids - {a.i}
      ensures Rank(t.phases[i], ids) == Rank(s.phases[i], ids)
    {
      OtherRanksStay(s, a, i);
    }
    TotalSplit(ids, s.phases, ids, a.i);
    TotalSplit(ids, t.phases, ids, a.i);
    TotalSame(ids - {a.i}, s.phases, t.phases, ids);
  }

  /** While no client comes or goes, the streams take a bounded number of steps. */
  lemma {:induction false} InternalRunsEnd(s: Streams, actions: seq<Action>)
    requires Inv(s) && Run(s, actions).Some? && forall a | a in actions :: Internal(a)
    ensures |actions| + Remaining(Run(s, actions).value) <= Remaining(s)
    decreases |actions|
  {
    if actions != [] {
      assert actions[0] in actions && forall a | a in actions[1..] :: a in actions;
      StepDecreases(s, actions[0]);
      InvKept(s, actions[0]);
      InternalRunsEnd(Step(s, actions[0]).next, actions[1..]);
    }
  }
}
