/** How update streams that come and go one at a time settle, and exactly when they do not: when a channel is closed
    under a blocked sender, and when streams that connect at the same time block each other. */
module StreamSettling {
  import opened Options
  import opened UpdateStream
  import opened StreamProgress

  ghost predicate AtMostOneUnsettled(s: Streams) {
    forall i, j | i in s.phases && j in s.phases && !s.phases[i].Settled() && !s.phases[j].Settled() :: i == j
  }

  /** No internal step can be completed: each is blocked, or would crash. */
  ghost predicate AtRest(s: Streams)
    requires s.Shaped()
  {
    forall a | Internal(a) :: !Step(s, a).Ok?
  }

  // ---------------------------------------------------------------------------------------------------------
  // When a channel is closed under its sender
  // ---------------------------------------------------------------------------------------------------------

  /** Stream j, another one, is blocked sending to i. */
  predicate SendsTo(s: Streams, j: Id, i: Id) {
    j in s.phases && j != i && s.phases[j].Walking() && s.phases[j].walk.target == Some(i)
  }

  lemma TargetedBy(s: Streams, i: Id)
    requires i in s.phases && s.phases[i].Leaving?
    ensures Targeted(s, i) <==> exists j :: SendsTo(s, j, i)
  {
    if Targeted(s, i) {
      var j :| j in s.phases && s.phases[j].Walking() && s.phases[j].walk.target == Some(i);
      assert SendsTo(s, j, i);
    }
  }

  /** In any state, a step crashes exactly when it closes the channel of a stream that another one is sending to. */
  lemma CrashExactly(s: Streams, a: Action)
    requires s.Shaped()
    ensures Step(s, a).Crash? <==>
            a.Unregister? && a.i in s.phases && s.phases[a.i].Leaving? && exists j :: SendsTo(s, j, a.i)
  {
    if a.i in s.phases && s.phases[a.i].Leaving? {
      TargetedBy(s, a.i);
    }
  }

  /** Hence in every run no step crashes while at most one stream is connecting or disconnecting. */
  lemma OneAtATimeNeverCrashes(s: Streams, actions: seq<Action>, a: Action)
    requires Initial(s) && Run(s, actions).Some? && AtMostOneUnsettled(Run(s, actions).value)
    ensures !Step(Run(s, actions).value, a).Crash?
  {
    CrashExactly(Run(s, actions).value, a);
  }

  /** In every run, the client of a looping stream can leave; the cleanup then crashes exactly when another stream is
      sending to this one at the time. */
  lemma LeavingCrashesExactly(s: Streams, actions: seq<Action>, i: Id)
    requires Initial(s) && Run(s, actions).Some?
    requires i in Run(s, actions).value.phases && Run(s, actions).value.phases[i].Looping?
    ensures var t := Run(s, actions).value;
            && Run(s, actions + [Hangup(i)]) == Some(t.To(i, Leaving))
            && (Step(t.To(i, Leaving), Unregister(i)).Crash? <==> exists j :: SendsTo(t, j, i))
  {
    var t := Run(s, actions).value;
    RunMore(s, actions, t, Hangup(i), t.To(i, Leaving));
    CrashExactly(t.To(i, Leaving), Unregister(i));
    forall j ensures SendsTo(t.To(i, Leaving), j, i) <==> SendsTo(t, j, i) {
    }
  }

  /** It takes no more than an announcement that has not come by yet: the announcer turns to the looping stream, whose
      client leaves. */
  lemma AnnouncementThenLeavingCrashes(s: Streams, actions: seq<Action>, i: Id, j: Id)
    requires Initial(s) && Run(s, actions).Some?
    requires var t := Run(s, actions).value;
             && i in t.phases && t.phases[i].Looping?
             && j in t.phases && t.phases[j].Walking()
             && t.phases[j].walk.target.None? && i !in t.phases[j].walk.visited
    ensures Run(s, actions + [Pick(j, i)] + [Hangup(i)]).Some?
    ensures Step(Run(s, actions + [Pick(j, i)] + [Hangup(i)]).value, Unregister(i)).Crash?
  {
    InitialHolds(s);
    RunKeepsInv(s, actions);
    var t := Run(s, actions).value;
    var u := t.To(j, t.phases[j].WithWalk(t.phases[j].walk.(target := Some(i))));
    RunMore(s, actions, t, Pick(j, i), u);
    LeavingCrashesExactly(s, actions + [Pick(j, i)], i);
    assert SendsTo(u, j, i);
  }

  // ---------------------------------------------------------------------------------------------------------
  // When streams block each other
  // ---------------------------------------------------------------------------------------------------------

  /** In every run, when nothing internal is possible, something is unfinished exactly when streams that are connecting
      wait for each other in a cycle. */
  lemma StandstillIsCycle(s: Streams, actions: seq<Action>)
    requires Initial(s) && Run(s, actions).Some?
    requires forall a | Internal(a) :: Step(Run(s, actions).value, a).Blocked?
    ensures var t := Run(s, actions).value;
            (exists i | i in t.phases :: !t.phases[i].Settled()) <==> exists c :: Cycle(t, c)
  {
    var t := Run(s, actions).value;
    if exists i | i in t.phases :: !t.phases[i].Settled() {
      var c := StuckMeansCycle(s, actions);
      assert Cycle(t, c);
    }
    if c :| Cycle(t, c) {
      CycleHasTwo(t, c);
    }
  }

  function Alone(other: Id, channels: set<Id>, target: Option<Id>): Phase {
    Announcing(Walk(channels - {other}, {}, target))
  }

  /** Everybody but i and j is where they were. */
  predicate OthersStay(s: Streams, t: Streams, i: Id, j: Id) {
    t.phases.Keys == s.phases.Keys && forall k | k in s.phases && k != i && k != j :: t.phases[k] == s.phases[k]
  }

  lemma BothStart(s: Streams, actions: seq<Action>, t: Streams, i: Id, j: Id) returns (u: Streams)
    requires s.Shaped() && Run(s, actions) == Some(t) && i != j
    requires i in t.phases && t.phases[i].Registered? && j in t.phases && t.phases[j].Registered?
    ensures Run(s, actions + [StartAnnounce(i)] + [StartAnnounce(j)]) == Some(u)
    ensures u.Shaped() && u.channels == t.channels && OthersStay(t, u, i, j)
    ensures i in u.phases && u.phases[i] == Alone(i, u.channels, None)
    ensures j in u.phases && u.phases[j] == Alone(j, u.channels, None)
  {
    var mid := t.To(i, Alone(i, t.channels, None));
    u := mid.To(j, Alone(j, t.channels, None));
    RunMore(s, actions, t, StartAnnounce(i), mid);
    RunMore(s, actions + [StartAnnounce(i)], mid, StartAnnounce(j), u);
  }

  lemma BothPick(s: Streams, actions: seq<Action>, u: Streams, i: Id, j: Id) returns (v: Streams)
    requires s.Shaped() && Run(s, actions) == Some(u) && i != j && i in u.channels && j in u.channels
    requires i in u.phases && u.phases[i] == Alone(i, u.channels, None)
    requires j in u.phases && u.phases[j] == Alone(j, u.channels, None)
    ensures Run(s, actions + [Pick(i, j)] + [Pick(j, i)]) == Some(v)
    ensures Cycle(v, [i, j]) && OthersStay(u, v, i, j)
  {
    var mid := u.To(i, Alone(i, u.channels, Some(j)));
    v := mid.To(j, Alone(j, u.channels, Some(i)));
    RunMore(s, actions, u, Pick(i, j), mid);
    RunMore(s, actions + [Pick(i, j)], mid, Pick(j, i), v);
  }

  /** In every run, any two streams that have both registered and not yet announced themselves can end up in a cycle,
      in two steps each. */
  lemma ConcurrentConnectsCanBlock(s: Streams, actions: seq<Action>, i: Id, j: Id)
    requires Initial(s) && Run(s, actions).Some? && i != j
    requires i in Run(s, actions).value.phases && Run(s, actions).value.phases[i].Registered?
    requires j in Run(s, actions).value.phases && Run(s, actions).value.phases[j].Registered?
    ensures var more := actions + [StartAnnounce(i)] + [StartAnnounce(j)] + [Pick(i, j)] + [Pick(j, i)];
            && Run(s, more).Some? && Cycle(Run(s, more).value, [i, j])
            && OthersStay(Run(s, actions).value, Run(s, more).value, i, j)
  {
    InitialHolds(s);
    RunKeepsInv(s, actions);
    var u := BothStart(s, actions, Run(s, actions).value, i, j);
    var v := BothPick(s, actions + [StartAnnounce(i)] + [StartAnnounce(j)], u, i, j);
  }

  // ---------------------------------------------------------------------------------------------------------
  // One at a time
  // ---------------------------------------------------------------------------------------------------------

  /** In every run, while something is unfinished, a step that does not crash is possible, unless two streams announce
      themselves at the same time or a stream that is leaving is being sent to. */
  lemma SerialConnectsGoOn(s: Streams, actions: seq<Action>)
    requires Initial(s) && Run(s, actions).Some?
    requires var t := Run(s, actions).value;
             forall i, j | i in t.phases && j in t.phases && t.phases[i].Announcing? && t.phases[j].Announcing? ::
               i == j
    requires var t := Run(s, actions).value;
             forall i, j | i in t.phases && SendsTo(t, j, i) :: !t.phases[i].Leaving?
    requires exists i | i in Run(s, actions).value.phases :: !Run(s, actions).value.phases[i].Settled()
    ensures exists a | Internal(a) :: Step(Run(s, actions).value, a).Ok?
  {
    var t := Run(s, actions).value;
    SerialConnectsNeverStuck(s, actions);
    var a :| Internal(a) && !Step(t, a).Blocked?;
    CrashExactly(Run(s, actions).value, a);
    assert Step(t, a).Ok?;
  }

  /** In every run, with at most one stream connecting or disconnecting, the controller rests only when it is done. */
  lemma OneAtATimeGoesOn(s: Streams, actions: seq<Action>)
    requires Initial(s) && Run(s, actions).Some?
    requires AtMostOneUnsettled(Run(s, actions).value) && AtRest(Run(s, actions).value)
    ensures forall i | i in Run(s, actions).value.phases :: Run(s, actions).value.phases[i].Settled()
  {
    var t := Run(s, actions).value;
    if exists i | i in t.phases :: !t.phases[i].Settled() {
      SerialConnectsNeverStuck(s, actions);
      var a :| Internal(a) && !Step(t, a).Blocked?;
      OneAtATimeNeverCrashes(s, actions, a);
    }
  }

  lemma StaysOneAtATime(s: Streams, a: Action)
    requires s.Shaped() && AtMostOneUnsettled(s) && Internal(a) && Step(s, a).Ok?
    ensures AtMostOneUnsettled(Step(s, a).next)
  {
    var t := Step(s, a).next;
    assert !s.phases[a.i].Settled();
    forall i | i in t.phases && !t.phases[i].Settled() ensures i == a.i {
    }
  }

  lemma {:induction false} InternalRunStays(s: Streams, more: seq<Action>)
    requires s.Shaped() && AtMostOneUnsettled(s) && Run(s, more).Some? && forall a | a in more :: Internal(a)
    ensures AtMostOneUnsettled(Run(s, more).value)
    decreases |more|
  {
    if more != [] {
      assert more[0] in more && forall a | a in more[1..] :: a in more;
      StaysOneAtATime(s, more[0]);
      InternalRunStays(Step(s, more[0]).next, more[1..]);
    }
  }

  /** From every state a run can reach in which at most one stream is connecting or disconnecting, the controller left
      to itself takes a bounded number of steps, and wherever it comes to rest all streams have settled and what each
      has been sent amounts to exactly the other connected peers. */
  lemma LeftAloneViewsConverge(s: Streams, actions: seq<Action>, more: seq<Action>)
    requires Initial(s) && Run(s, actions).Some? && AtMostOneUnsettled(Run(s, actions).value)
    requires Run(Run(s, actions).value, more).Some? && forall a | a in more :: Internal(a)
    ensures |more| <= Remaining(Run(s, actions).value)
    ensures var t := Run(Run(s, actions).value, more).value;
            AtRest(t) ==>
              && (forall i | i in t.phases :: t.phases[i].Settled())
              && (forall i | i in t.phases && t.phases[i].Looping? :: Replay(t.logs[i]) == t.connected - {i})
  {
    InitialHolds(s);
    RunKeepsInv(s, actions);
    InternalRunsEnd(Run(s, actions).value, more);
    InternalRunStays(Run(s, actions).value, more);
    RunConcat(s, actions, more);
    var t := Run(Run(s, actions).value, more).value;
    assert Run(s, actions + more) == Some(t);
    if AtRest(t) {
      OneAtATimeGoesOn(s, actions + more);
      forall i | i in t.phases && t.phases[i].Looping? ensures Replay(t.logs[i]) == t.connected - {i} {
        ViewsConverge(s, actions + more, i);
      }
    }
  }

  // ---------------------------------------------------------------------------------------------------------
  // Both ways to go wrong do happen to any two peers
  // ---------------------------------------------------------------------------------------------------------

  lemma BothMark(s: Streams, i: Id, j: Id) returns (actions: seq<Action>, t: Streams)
    requires Initial(s) && i in s.phases && j in s.phases && i != j
    ensures Run(s, actions) == Some(t) && t.Shaped() && t.channels == {}
    ensures i in t.phases && t.phases[i].Marked? && j in t.phases && t.phases[j].Marked?
    ensures forall k | k in t.phases && k != i && k != j :: t.phases[k].Idle?
  {
    var u := Step(s, Open(i)).next;
    RunMore(s, [], s, Open(i), u);
    t := Step(u, Open(j)).next;
    RunMore(s, [] + [Open(i)], u, Open(j), t);
    actions := [] + [Open(i)] + [Open(j)];
  }

  lemma BothRegister(s: Streams, i: Id, j: Id) returns (actions: seq<Action>, t: Streams)
    requires Initial(s) && i in s.phases && j in s.phases && i != j
    ensures Run(s, actions) == Some(t) && t.Shaped()
    ensures i in t.phases && t.phases[i].Registered? && j in t.phases && t.phases[j].Registered?
    ensures forall k | k in t.phases && k != i && k != j :: t.phases[k].Idle?
  {
    var marked;
    actions, marked := BothMark(s, i, j);
    var u := Step(marked, Register(i)).next;
    RunMore(s, actions, marked, Register(i), u);
    t := Step(u, Register(j)).next;
    RunMore(s, actions + [Register(i)], u, Register(j), t);
    actions := actions + [Register(i)] + [Register(j)];
  }

  /** A cycle of two is a standstill when nobody else is connecting or disconnecting. */
  lemma CycleOfTwoIsStuck(t: Streams, i: Id, j: Id)
    requires t.Shaped() && Cycle(t, [i, j]) && forall k | k in t.phases && k != i && k != j :: t.phases[k].Idle?
    ensures Stuck(t)
  {
    var c := [i, j];
    assert Waits(t, c[0], c[After(c, 0)]) && Waits(t, c[1], c[After(c, 1)]);
    assert !t.phases[i].Settled();
  }

  lemma DeadlockIsReachable(s: Streams, i: Id, j: Id) returns (actions: seq<Action>)
    requires Initial(s) && i in s.phases && j in s.phases && i != j
    ensures Run(s, actions).Some? && Cycle(Run(s, actions).value, [i, j]) && Stuck(Run(s, actions).value)
  {
    var t;
    actions, t := BothRegister(s, i, j);
    ConcurrentConnectsCanBlock(s, actions, i, j);
    actions := actions + [StartAnnounce(i)] + [StartAnnounce(j)] + [Pick(i, j)] + [Pick(j, i)];
    CycleOfTwoIsStuck(Run(s, actions).value, i, j);
  }

  /** Stream i has registered, stream j is about to. */
  lemma OneRegisters(s: Streams, i: Id, j: Id) returns (actions: seq<Action>, t: Streams)
    requires Initial(s) && i in s.phases && j in s.phases && i != j
    ensures Run(s, actions) == Some(t) && t.Shaped() && t.channels == {i}
    ensures i in t.phases && t.phases[i].Registered? && j in t.phases && t.phases[j].Marked?
  {
    var marked;
    actions, marked := BothMark(s, i, j);
    t := Step(marked, Register(i)).next;
    RunMore(s, actions, marked, Register(i), t);
    actions := actions + [Register(i)];
  }

  /** Stream i has announced itself to nobody. */
  lemma OneAnnounces(s: Streams, i: Id, j: Id) returns (actions: seq<Action>, t: Streams)
    requires Initial(s) && i in s.phases && j in s.phases && i != j
    ensures Run(s, actions) == Some(t) && t.Shaped() && t.channels == {i}
    ensures i in t.phases && t.phases[i].Announced? && j in t.phases && t.phases[j].Marked?
  {
    var registered;
    actions, registered := OneRegisters(s, i, j);
    var u := Step(registered, StartAnnounce(i)).next;
    RunMore(s, actions, registered, StartAnnounce(i), u);
    t := Step(u, FinishAnnounce(i)).next;
    RunMore(s, actions + [StartAnnounce(i)], u, FinishAnnounce(i), t);
    actions := actions + [StartAnnounce(i)] + [FinishAnnounce(i)];
  }

  /** Stream j announces itself meanwhile. */
  lemma OtherAnnounces(s: Streams, i: Id, j: Id) returns (actions: seq<Action>, t: Streams)
    requires Initial(s) && i in s.phases && j in s.phases && i != j
    ensures Run(s, actions) == Some(t) && t.Shaped() && i in t.channels
    ensures i in t.phases && t.phases[i].Announced?
    ensures j in t.phases && t.phases[j].Announcing? && t.phases[j].walk.visited == {} && t.phases[j].walk.target.None?
  {
    var announced;
    actions, announced := OneAnnounces(s, i, j);
    var u := Step(announced, Register(j)).next;
    RunMore(s, actions, announced, Register(j), u);
    t := Step(u, StartAnnounce(j)).next;
    RunMore(s, actions + [Register(j)], u, StartAnnounce(j), t);
    actions := actions + [Register(j)] + [StartAnnounce(j)];
  }

  /** Stream j turns to i, which fails to read its list: its channel is closed under the sender. */
  lemma CrashIsReachable(s: Streams, i: Id, j: Id) returns (actions: seq<Action>)
    requires Initial(s) && i in s.phases && j in s.phases && i != j
    ensures Run(s, actions).Some? && Step(Run(s, actions).value, Unregister(i)).Crash?
  {
    var announcing;
    actions, announcing := OtherAnnounces(s, i, j);
    var u := Step(announcing, Pick(j, i)).next;
    RunMore(s, actions, announcing, Pick(j, i), u);
    var t := Step(u, List(i, false)).next;
    RunMore(s, actions + [Pick(j, i)], u, List(i, false), t);
    actions := actions + [Pick(j, i)] + [List(i, false)];
    assert SendsTo(t, j, i);
    CrashExactly(t, Unregister(i));
  }
}
