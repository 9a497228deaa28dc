/** From which states the streams, left to themselves, can still come to grief: exactly how far it is safe for streams
    to connect and disconnect at the same time. */
module StreamDanger {
  import opened Options
  import opened UpdateStream
  import opened StreamProgress
  import opened StreamSettling

  /** Not in its loop, and with a channel or about to register one: whoever sends to it has to wait. */
  predicate Exposed(phase: Phase) {
    phase.Marked? || (phase.HasChannel() && !phase.Looping?)
  }

  /** Its channel is gone, and its departure not announced to all. */
  predicate Parting(phase: Phase) {
    phase.Unregistered? || phase.Unmarked? || phase.Departing?
  }

  /** At most one stream is exposed, and those that are parting have been told off it. */
  ghost predicate Harmless(s: Streams) {
    && (forall i, j | i in s.phases && j in s.phases && Exposed(s.phases[i]) && Exposed(s.phases[j]) :: i == j)
    && (forall i, j | i in s.phases && j in s.phases && Exposed(s.phases[i]) && Parting(s.phases[j]) ::
          s.phases[j].Departing? && i in s.phases[j].walk.visited)
  }

  /** A crash is the next step, or streams block each other for ever. */
  ghost predicate Bad(s: Streams) {
    s.Shaped() && ((exists a :: Internal(a) && Step(s, a).Crash?) || exists c :: Cycle(s, c))
  }

  predicate AllInternal(actions: seq<Action>) {
    forall a | a in actions :: Internal(a)
  }

  ghost predicate CanGoBad(s: Streams) {
    s.Shaped() && exists actions :: AllInternal(actions) && Run(s, actions).Some? && Bad(Run(s, actions).value)
  }

  // ---------------------------------------------------------------------------------------------------------
  // Harmless states stay harmless
  // ---------------------------------------------------------------------------------------------------------

  lemma NobodySends(s: Streams, j: Id, i: Id)
    requires Inv(s) && Harmless(s) && i in s.phases && Exposed(s.phases[i])
    ensures !SendsTo(s, j, i)
  {
    if j in s.phases && s.phases[j].Walking() {
      assert WalkInv(s, j, s.phases[j].walk);
      assert Exposed(s.phases[j]) || Parting(s.phases[j]);
    }
  }

  lemma HarmlessIsNotBad(s: Streams)
    requires Inv(s) && Harmless(s)
    ensures !Bad(s)
  {
    forall a ensures !Step(s, a).Crash? {
      CrashExactly(s, a);
      if a.i in s.phases && Exposed(s.phases[a.i]) {
        forall j ensures !SendsTo(s, j, a.i) {
          NobodySends(s, j, a.i);
        }
      }
    }
    forall c ensures !Cycle(s, c) {
      if Cycle(s, c) {
        CycleHasTwo(s, c);
      }
    }
  }

  /** No stream becomes exposed by an internal step; one becomes parting only from being exposed; and what it has
      visited on its way stays visited. */
  predicate Follows(was: Phase, now: Phase) {
    && (Exposed(now) ==> Exposed(was))
    && (Parting(now) ==> Parting(was) || Exposed(was))
    && (Parting(now) && was.Departing? ==> now.Departing? && was.walk.visited <= now.walk.visited)
  }

  lemma PhaseAfter(s: Streams, a: Action, k: Id)
    requires s.Shaped() && Internal(a) && Step(s, a).Ok? && k in s.phases
    ensures k in Step(s, a).next.phases && Follows(s.phases[k], Step(s, a).next.phases[k])
  {
  }

  lemma StillHarmless(s: Streams, t: Streams)
    requires Harmless(s) && t.phases.Keys == s.phases.Keys
    requires forall k | k in s.phases :: Follows(s.phases[k], t.phases[k])
    ensures Harmless(t)
  {
    forall i, j | i in t.phases && j in t.phases && Exposed(t.phases[i])
      ensures Exposed(t.phases[j]) ==> i == j
      ensures Parting(t.phases[j]) ==> t.phases[j].Departing? && i in t.phases[j].walk.visited
    {
      assert Follows(s.phases[i], t.phases[i]) && Follows(s.phases[j], t.phases[j]);
      assert Exposed(s.phases[i]);
    }
  }

  lemma HarmlessStays(s: Streams, a: Action)
    requires Inv(s) && Harmless(s) && Internal(a) && Step(s, a).Ok?
    ensures Harmless(Step(s, a).next)
  {
    var t := Step(s, a).next;
    StepShaped(s, a);
    forall k | k in s.phases ensures Follows(s.phases[k], t.phases[k]) {
      PhaseAfter(s, a, k);
    }
    StillHarmless(s, t);
  }

  lemma {:induction false} HarmlessForGood(s: Streams, more: seq<Action>)
    requires Inv(s) && Harmless(s) && AllInternal(more) && Run(s, more).Some?
    ensures !Bad(Run(s, more).value)
    decreases |more|
  {
    if more == [] {
      HarmlessIsNotBad(s);
    } else {
      assert more[0] in more && forall a | a in more[1..] :: a in more;
      HarmlessStays(s, more[0]);
      InvKept(s, more[0]);
      HarmlessForGood(Step(s, more[0]).next, more[1..]);
    }
  }

  // ---------------------------------------------------------------------------------------------------------
  // From the others grief can come
  // ---------------------------------------------------------------------------------------------------------

  lemma BadAlready(s: Streams)
    requires Bad(s)
    ensures CanGoBad(s)
  {
    assert AllInternal([]) && Run(s, []) == Some(s);
  }

  lemma BadAhead(s: Streams, a: Action)
    requires s.Shaped() && Internal(a) && Step(s, a).Ok? && CanGoBad(Step(s, a).next)
    ensures CanGoBad(s)
  {
    var t := Step(s, a).next;
    var rest :| AllInternal(rest) && Run(t, rest).Some? && Bad(Run(t, rest).value);
    var all := [a] + rest;
    assert all[1..] == rest && AllInternal(all);
    assert Run(s, all) == Run(t, rest);
  }

  /** Nobody can go on: then streams that are connecting wait for each other in a cycle. */
  lemma StandstillIsBad(s: Streams, i: Id)
    requires Inv(s) && i in s.phases && !s.phases[i].Settled()
    requires forall a | Internal(a) :: Step(s, a).Blocked?
    ensures Bad(s)
  {
    BlockedOnAnnouncer(s, i);
    var c := PathCloses(s, [s.phases[i].walk.target.value]);
    assert Cycle(s, c);
  }

  /** The next step of a run in which stream i does not get into its loop. */
  function NotLooping(a: Action, i: Id): Action {
    if a == SendInit(i, true) then SendInit(i, false) else a
  }

  /** A stream that is being sent to while it is exposed stays so, unless it loops or its channel is closed. */
  lemma StaysSentTo(s: Streams, j: Id, i: Id, a: Action)
    requires Inv(s) && SendsTo(s, j, i) && i in s.phases && Exposed(s.phases[i])
    requires Internal(a) && a != SendInit(i, true) && Step(s, a).Ok?
    ensures var t := Step(s, a).next; SendsTo(t, j, i) && i in t.phases && Exposed(t.phases[i])
  {
  }

  lemma NotLoopingIsOk(s: Streams, a: Action, i: Id)
    requires s.Shaped() && Internal(a) && Step(s, a).Ok?
    ensures Internal(NotLooping(a, i)) && Step(s, NotLooping(a, i)).Ok?
  {
  }

  /** If an exposed stream is being sent to and never loops, its channel is closed under the sender, or nobody can go on
      any more. */
  lemma {:induction false} SentToGoesBad(s: Streams, j: Id, i: Id)
    requires Inv(s) && SendsTo(s, j, i) && i in s.phases && Exposed(s.phases[i])
    ensures CanGoBad(s)
    decreases Remaining(s)
  {
    if exists a :: Internal(a) && Step(s, a).Crash? {
      BadAlready(s);
    } else if b :| Internal(b) && Step(s, b).Ok? {
      var a := NotLooping(b, i);
      NotLoopingIsOk(s, b, i);
      StaysSentTo(s, j, i, a);
      InvKept(s, a);
      StepDecreases(s, a);
      SentToGoesBad(Step(s, a).next, j, i);
      BadAhead(s, a);
    } else {
      StandstillIsBad(s, i);
      BadAlready(s);
    }
  }

  /** Stream j has a walk before it, or is on one that has not come by i. */
  predicate CanPick(phase: Phase, i: Id) {
    !phase.Settled() && (phase.Walking() ==> i !in phase.walk.visited)
  }

  /** The step that brings stream j closer to sending to i, without ever getting into its loop. */
  function Towards(phase: Phase, j: Id, i: Id): Action {
    match phase
    case Marked => Register(j)
    case Registered => StartAnnounce(j)
    case Announcing(w) => if w.target.None? then Pick(j, i) else Handover(j)
    case Announced => List(j, false)
    case Listed(_) => SendInit(j, false)
    case Leaving => Unregister(j)
    case Unregistered => Unmark(j)
    case Unmarked => StartDepart(j)
    case Departing(w) => if w.target.None? then Pick(j, i) else Handover(j)
    case Idle | Looping => Open(j)
  }

  predicate Waiting(s: Streams, i: Id) {
    i in s.phases && s.phases[i].HasChannel() && !s.phases[i].Looping?
  }

  /** That step is possible, unless j is sending to an exposed stream already, or is itself being sent to. */
  lemma TowardsIsOk(s: Streams, j: Id, i: Id)
    requires Inv(s) && i != j && Waiting(s, i) && j in s.phases && CanPick(s.phases[j], i)
    requires forall x | SendsTo(s, j, x) && x in s.phases :: s.phases[x].Looping?
    ensures var a := Towards(s.phases[j], j, i);
            Internal(a) && (Step(s, a).Ok? || Step(s, a).Crash?)
  {
    if s.phases[j].Walking() {
      assert WalkInv(s, j, s.phases[j].walk);
      if s.phases[j].walk.target.Some? {
        assert SendsTo(s, j, s.phases[j].walk.target.value);
      }
    }
  }

  lemma WalkingTowardsKeeps(s: Streams, j: Id, i: Id)
    requires Inv(s) && i != j && Waiting(s, i) && j in s.phases && s.phases[j].Walking()
    requires CanPick(s.phases[j], i) && s.phases[j].walk.target != Some(i)
    requires Step(s, Towards(s.phases[j], j, i)).Ok?
    ensures var t := Step(s, Towards(s.phases[j], j, i)).next;
            Waiting(t, i) && j in t.phases && CanPick(t.phases[j], i)
  {
  }

  lemma PhaseTowardsKeeps(s: Streams, j: Id, i: Id)
    requires Inv(s) && i != j && Waiting(s, i) && j in s.phases && !s.phases[j].Walking()
    requires CanPick(s.phases[j], i) && Step(s, Towards(s.phases[j], j, i)).Ok?
    ensures var t := Step(s, Towards(s.phases[j], j, i)).next;
            Waiting(t, i) && j in t.phases && CanPick(t.phases[j], i)
  {
  }

  lemma TowardsKeeps(s: Streams, j: Id, i: Id)
    requires Inv(s) && i != j && Waiting(s, i) && j in s.phases && CanPick(s.phases[j], i)
    requires Step(s, Towards(s.phases[j], j, i)).Ok?
    requires forall x | SendsTo(s, j, x) && x in s.phases :: s.phases[x].Looping?
    ensures var t := Step(s, Towards(s.phases[j], j, i)).next;
            Waiting(t, i) && j in t.phases && CanPick(t.phases[j], i)
  {
    if s.phases[j].Walking() {
      assert !SendsTo(s, j, i);
      WalkingTowardsKeeps(s, j, i);
    } else {
      PhaseTowardsKeeps(s, j, i);
    }
  }

  /** Stream j comes to send to an exposed stream. */
  lemma {:induction false} PickingGoesBad(s: Streams, j: Id, i: Id)
    requires Inv(s) && i != j && Waiting(s, i) && j in s.phases && CanPick(s.phases[j], i)
    ensures CanGoBad(s)
    decreases Remaining(s)
  {
    if x :| SendsTo(s, j, x) && x in s.phases && !s.phases[x].Looping? {
      assert WalkInv(s, j, s.phases[j].walk);
      SentToGoesBad(s, j, x);
    } else {
      TowardsIsOk(s, j, i);
      var a := Towards(s.phases[j], j, i);
      if Step(s, a).Crash? {
        BadAlready(s);
      } else {
        TowardsKeeps(s, j, i);
        InvKept(s, a);
        StepDecreases(s, a);
        PickingGoesBad(Step(s, a).next, j, i);
        BadAhead(s, a);
      }
    }
  }

  // ---------------------------------------------------------------------------------------------------------
  // No two streams have visited each other while both announce themselves
  // ---------------------------------------------------------------------------------------------------------

  predicate Mutual(s: Streams, i: Id, j: Id)
    requires i in s.phases && j in s.phases
  {
    && i != j && s.phases[i].Announcing? && s.phases[j].Announcing?
    && j in s.phases[i].walk.visited && i in s.phases[j].walk.visited
  }

  ghost predicate NoMutual(s: Streams) {
    forall i, j | i in s.phases && j in s.phases :: !Mutual(s, i, j)
  }

  lemma NoMutualKept(s: Streams, a: Action)
    requires Inv(s) && NoMutual(s) && Step(s, a).Ok?
    ensures NoMutual(Step(s, a).next)
  {
    var t := Step(s, a).next;
    forall i, j | i in t.phases && j in t.phases ensures !Mutual(t, i, j) {
      assert i in s.phases && j in s.phases ==> !Mutual(s, i, j) && !Mutual(s, j, i);
    }
  }

  lemma {:induction false} RunKeepsNoMutual(s: Streams, actions: seq<Action>)
    requires Inv(s) && NoMutual(s) && Run(s, actions).Some?
    ensures NoMutual(Run(s, actions).value)
    decreases |actions|
  {
    if actions != [] {
      NoMutualKept(s, actions[0]);
      InvKept(s, actions[0]);
      RunKeepsNoMutual(Step(s, actions[0]).next, actions[1..]);
    }
  }

  // ---------------------------------------------------------------------------------------------------------
  // The exact condition
  // ---------------------------------------------------------------------------------------------------------

  /** A marked stream registers; nothing else changes. */
  lemma Registers(s: Streams, i: Id)
    requires Inv(s) && i in s.phases && s.phases[i].Marked?
    ensures var t := s.To(i, Registered).(channels := s.channels + {i});
            Step(s, Register(i)) == Ok(t) && Inv(t) && Waiting(t, i)
  {
    InvKept(s, Register(i));
  }

  lemma OneCanPick(s: Streams, j: Id, i: Id)
    requires Inv(s) && i != j && i in s.phases && Exposed(s.phases[i]) && j in s.phases && CanPick(s.phases[j], i)
    ensures CanGoBad(s)
  {
    if s.phases[i].Marked? {
      Registers(s, i);
      PickingGoesBad(Step(s, Register(i)).next, j, i);
      BadAhead(s, Register(i));
    } else {
      PickingGoesBad(s, j, i);
    }
  }

  lemma TwoExposedGoBad(s: Streams, i: Id, j: Id)
    requires Inv(s) && NoMutual(s) && i in s.phases && j in s.phases && i != j
    requires Exposed(s.phases[i]) && Exposed(s.phases[j])
    ensures CanGoBad(s)
  {
    assert !Mutual(s, i, j);
    if CanPick(s.phases[j], i) {
      OneCanPick(s, j, i);
    } else {
      OneCanPick(s, i, j);
    }
  }

  lemma PartingGoesBad(s: Streams, i: Id, j: Id)
    requires Inv(s) && i in s.phases && j in s.phases && Exposed(s.phases[i]) && Parting(s.phases[j])
    requires !(s.phases[j].Departing? && i in s.phases[j].walk.visited)
    ensures CanGoBad(s)
  {
    OneCanPick(s, j, i);
  }

  lemma HarmGoesBad(s: Streams)
    requires Inv(s) && NoMutual(s) && !Harmless(s)
    ensures CanGoBad(s)
  {
    if i, j :| i in s.phases && j in s.phases && Exposed(s.phases[i]) && Exposed(s.phases[j]) && i != j {
      TwoExposedGoBad(s, i, j);
    } else {
      var i, j :| i in s.phases && j in s.phases && Exposed(s.phases[i]) && Parting(s.phases[j])
                  && !(s.phases[j].Departing? && i in s.phases[j].walk.visited);
      PartingGoesBad(s, i, j);
    }
  }

  /** From a state that a run can reach, internal steps can lead to a crash or to a cycle exactly when two streams are
      exposed, or one is and another one that is parting has not yet visited it. */
  lemma HarmlessExactly(s: Streams, actions: seq<Action>)
    requires Initial(s) && Run(s, actions).Some?
    ensures Harmless(Run(s, actions).value) <==> !CanGoBad(Run(s, actions).value)
  {
    InitialHolds(s);
    RunKeepsInv(s, actions);
    RunKeepsNoMutual(s, actions);
    var t := Run(s, actions).value;
    if Harmless(t) {
      forall more | AllInternal(more) && Run(t, more).Some? ensures !Bad(Run(t, more).value) {
        HarmlessForGood(t, more);
      }
    } else {
      HarmGoesBad(t);
    }
  }
}
