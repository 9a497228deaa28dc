/** The update streams of the controller.  A stream marks its peer connected, registers a channel, announces the peer on
    every other channel, reads the list of connected peers, sends it as INIT and then passes on what its channel
    brings; when it ends it removes and closes the channel, clears the mark and announces the departure.  Sends are
    synchronous, and any number of streams interleave. */
module UpdateStream {
  import opened Options

  type Id = nat

  datatype Update = Init(peers: set<Id>) | Connect(id: Id) | Disconnect(id: Id)

  /** A walk over the channel registry: `must` are the other channels present since it began, of which those in
      `visited` were served; `target` is the channel a send is blocked on. */
  datatype Walk = Walk(must: set<Id>, visited: set<Id>, target: Option<Id>)

  datatype Phase =
    | Idle
    | Marked
    | Registered
    | Announcing(walk: Walk)
    | Announced
    | Listed(peers: set<Id>)
    | Looping
    | Leaving
    | Unregistered
    | Unmarked
    | Departing(walk: Walk)
  {
    predicate HasChannel() {
      Registered? || Announcing? || Announced? || Listed? || Looping? || Leaving?
    }

    predicate IsConnected() {
      Marked? || HasChannel() || Unregistered?
    }

    predicate Walking() {
      Announcing? || Departing?
    }

    /** Neither connecting nor disconnecting. */
    predicate Settled() {
      Idle? || Looping?
    }

    function WithWalk(w: Walk): Phase
      requires Walking()
    {
      if Announcing? then Announcing(w) else Departing(w)
    }
  }

  /** One phase and one log of sent updates per peer. */
  datatype Streams = Streams(phases: map<Id, Phase>, connected: set<Id>, channels: set<Id>, logs: map<Id, seq<Update>>)
  {
    predicate Shaped() {
      phases.Keys == logs.Keys
    }

    function To(i: Id, phase: Phase): Streams {
      this.(phases := phases[i := phase])
    }
  }

  datatype Action =
    | Open(i: Id)
    | Register(i: Id)
    | StartAnnounce(i: Id)
    | Pick(i: Id, t: Id)
    | Handover(i: Id)
    | FinishAnnounce(i: Id)
    | List(i: Id, ok: bool)
    | SendInit(i: Id, ok: bool)
    | Hangup(i: Id)
    | Unregister(i: Id)
    | Unmark(i: Id)
    | StartDepart(i: Id)
    | FinishDepart(i: Id)

  /** Blocked: the action is not the next one of its stream, or its send has no receiver yet.  Crash: a channel is
      closed under a sender. */
  datatype Outcome = Blocked | Crash | Ok(next: Streams)

  /** A closed channel is not visited any more. */
  function Forget(phase: Phase, t: Id): Phase {
    if phase.Walking() then phase.WithWalk(phase.walk.(must := phase.walk.must - {t})) else phase
  }

  predicate Targeted(s: Streams, t: Id) {
    exists j | j in s.phases :: s.phases[j].Walking() && s.phases[j].walk.target == Some(t)
  }

  function Step(s: Streams, a: Action): Outcome
    requires s.Shaped()
  {
    if a.i !in s.phases then Blocked
    else
      var phase := s.phases[a.i];
      match a
      case Open(i) =>
        if phase.Idle? then Ok(s.To(i, Marked).(connected := s.connected + {i}, logs := s.logs[i := []])) else Blocked
      case Register(i) =>
        if phase.Marked? then Ok(s.To(i, Registered).(channels := s.channels + {i})) else Blocked
      case StartAnnounce(i) =>
        if phase.Registered? then Ok(s.To(i, Announcing(Walk(s.channels - {i}, {}, None)))) else Blocked
      case Pick(i, t) =>
        if phase.Walking() && phase.walk.target.None? && t in s.channels && t != i && t !in phase.walk.visited then
          Ok(s.To(i, phase.WithWalk(phase.walk.(target := Some(t)))))
        else Blocked
      case Handover(i) =>
        if phase.Walking() && phase.walk.target.Some? && phase.walk.target.value in s.phases
           && s.phases[phase.walk.target.value].Looping? then
          var t := phase.walk.target.value;
          var update := if phase.Announcing? then Connect(i) else Disconnect(i);
          Ok(s.To(i, phase.WithWalk(phase.walk.(visited := phase.walk.visited + {t}, target := None)))
              .(logs := s.logs[t := s.logs[t] + [update]]))
        else Blocked
      case FinishAnnounce(i) =>
        if phase.Announcing? && phase.walk.target.None? && phase.walk.must <= phase.walk.visited then
          Ok(s.To(i, Announced))
        else Blocked
      case List(i, ok) =>
        if phase.Announced? then Ok(s.To(i, if ok then Listed(s.connected - {i}) else Leaving)) else Blocked
      case SendInit(i, ok) =>
        if phase.Listed? then
          if ok then Ok(s.To(i, Looping).(logs := s.logs[i := s.logs[i] + [Init(phase.peers)]]))
          else Ok(s.To(i, Leaving))
        else Blocked
      case Hangup(i) =>
        if phase.Looping? then Ok(s.To(i, Leaving)) else Blocked
      case Unregister(i) =>
        if !phase.Leaving? then Blocked
        else if Targeted(s, i) then Crash
        else
          Ok(s.(phases := map j | j in s.phases :: if j == i then Unregistered else Forget(s.phases[j], i),
                channels := s.channels - {i}))
      case Unmark(i) =>
        if phase.Unregistered? then Ok(s.To(i, Unmarked).(connected := s.connected - {i})) else Blocked
      case StartDepart(i) =>
        if phase.Unmarked? then Ok(s.To(i, Departing(Walk(s.channels - {i}, {}, None)))) else Blocked
      case FinishDepart(i) =>
        if phase.Departing? && phase.walk.target.None? && phase.walk.must <= phase.walk.visited then
          Ok(s.To(i, Idle))
        else Blocked
  }

  lemma StepShaped(s: Streams, a: Action)
    requires s.Shaped() && Step(s, a).Ok?
    ensures Step(s, a).next.Shaped() && Step(s, a).next.phases.Keys == s.phases.Keys
  {
  }

  /** Some(t) when the run reaches t without blocking or crashing. */
  function Run(s: Streams, actions: seq<Action>): (r: Option<Streams>)
    requires s.Shaped()
    ensures r.Some? ==> r.value.Shaped() && r.value.phases.Keys == s.phases.Keys
    decreases |actions|
  {
    if actions == [] then Some(s)
    else
      match Step(s, actions[0])
      case Ok(t) => StepShaped(s, actions[0]); Run(t, actions[1..])
      case _ => None
  }

  lemma {:induction false} RunConcat(s: Streams, a: seq<Action>, b: seq<Action>)
    requires s.Shaped() && Run(s, a).Some?
    ensures Run(s, a + b) == Run(Run(s, a).value, b)
    decreases |a|
  {
    if a == [] {
      assert a + b == b;
    } else {
      assert (a + b)[1..] == a[1..] + b;
      RunConcat(Step(s, a[0]).next, a[1..], b);
    }
  }

  lemma RunMore(s: Streams, actions: seq<Action>, t: Streams, a: Action, u: Streams)
    requires s.Shaped() && Run(s, actions) == Some(t) && Step(t, a) == Ok(u)
    ensures Run(s, actions + [a]) == Some(u)
  {
    RunConcat(s, actions, [a]);
    assert [a][1..] == [];
    assert Run(u, []) == Some(u);
  }

  /** Known peers, none of them connected. */
  predicate Initial(s: Streams) {
    && s.Shaped() && s.connected == {} && s.channels == {}
    && forall i | i in s.phases :: s.phases[i] == Idle
  }

  function Updated(view: set<Id>, update: Update): set<Id> {
    match update
    case Init(peers) => peers
    case Connect(id) => view + {id}
    case Disconnect(id) => view - {id}
  }

  /** What the updates sent on a stream amount to, applied in order. */
  function Replay(log: seq<Update>): set<Id> {
    if log == [] then {} else Updated(Replay(log[..|log| - 1]), log[|log| - 1])
  }

  /** The view of a stream that has its list. */
  function Told(s: Streams, i: Id): set<Id>
    requires s.Shaped() && i in s.phases
  {
    if s.phases[i].Listed? then s.phases[i].peers else Replay(s.logs[i])
  }

  predicate HasView(phase: Phase) {
    phase.Listed? || phase.Looping?
  }

  // ---------------------------------------------------------------------------------------------------------
  // The invariant
  // ---------------------------------------------------------------------------------------------------------

  ghost predicate RegistryInv(s: Streams) {
    && s.Shaped()
    && (forall i :: i in s.channels <==> i in s.phases && s.phases[i].HasChannel())
    && (forall i :: i in s.connected <==> i in s.phases && s.phases[i].IsConnected())
  }

  predicate WalkInv(s: Streams, i: Id, w: Walk) {
    && w.must <= s.channels && i !in w.must
    && (w.target.Some? ==> w.target.value in s.channels && w.target.value != i && w.target.value !in w.visited)
  }

  predicate Pending(w: Walk, i: Id) {
    i in w.must && i !in w.visited
  }

  /** What the view of `i` says about `j`, given where the stream of `j` is: where the view may be out of date, the
      walk of `j` still has to come by. */
  predicate Informed(told: set<Id>, i: Id, j: Id, phase: Phase) {
    match phase
    case Idle => j !in told
    case Announcing(w) => j in told || Pending(w, i)
    case Announced | Listed(_) | Looping | Leaving | Unregistered => j in told
    case Departing(w) => j !in told || Pending(w, i)
    case Marked | Registered | Unmarked => true
  }

  ghost predicate WalksInv(s: Streams) {
    forall i | i in s.phases && s.phases[i].Walking() :: WalkInv(s, i, s.phases[i].walk)
  }

  ghost predicate ViewInv(s: Streams, i: Id)
    requires s.Shaped() && i in s.phases
  {
    && i !in Told(s, i)
    && Told(s, i) <= s.phases.Keys
    && forall j | j in s.phases && j != i :: Informed(Told(s, i), i, j, s.phases[j])
  }

  ghost predicate Inv(s: Streams) {
    && RegistryInv(s)
    && WalksInv(s)
    && forall i | i in s.phases && HasView(s.phases[i]) :: ViewInv(s, i)
  }

  lemma ReplayAppend(log: seq<Update>, update: Update)
    ensures Replay(log + [update]) == Updated(Replay(log), update)
  {
    assert (log + [update])[..|log|] == log;
  }

  lemma ToKeepsRegistry(s: Streams, i: Id, phase: Phase)
    requires RegistryInv(s) && i in s.phases
    requires phase.HasChannel() == s.phases[i].HasChannel() && phase.IsConnected() == s.phases[i].IsConnected()
    ensures RegistryInv(s.To(i, phase))
  {
  }

  lemma MarkingKeepsRegistry(s: Streams, a: Action)
    requires Inv(s) && Step(s, a).Ok? && (a.Open? || a.Register? || a.Unmark?)
    ensures RegistryInv(Step(s, a).next)
  {
  }

  lemma UnregisterKeepsRegistry(s: Streams, i: Id)
    requires Inv(s) && Step(s, Unregister(i)).Ok?
    ensures RegistryInv(Step(s, Unregister(i)).next)
  {
  }

  lemma RegistryKept(s: Streams, a: Action)
    requires Inv(s) && Step(s, a).Ok?
    ensures RegistryInv(Step(s, a).next)
  {
    match a
    case Open(_) | Register(_) | Unmark(_) => MarkingKeepsRegistry(s, a);
    case Unregister(i) => UnregisterKeepsRegistry(s, i);
    case _ => ToKeepsRegistry(s, a.i, Step(s, a).next.phases[a.i]);
  }

  lemma WalksKept(s: Streams, a: Action)
    requires Inv(s) && Step(s, a).Ok?
    ensures WalksInv(Step(s, a).next)
  {
  }

  /** The view of `i` is still right after another stream moves on, if it is right about that stream. */
  lemma MoveKeepsView(s: Streams, t: Streams, i: Id, k: Id)
    requires s.Shaped() && t.Shaped() && i in s.phases && k in s.phases && i != k && k in t.phases
    requires ViewInv(s, i) && t.phases == s.phases[k := t.phases[k]] && t.logs[i] == s.logs[i]
    requires Informed(Told(s, i), i, k, t.phases[k])
    ensures ViewInv(t, i)
  {
  }

  /** A stream that has just read the list of connected peers is up to date. */
  lemma ListGivesView(s: Streams, i: Id)
    requires Inv(s) && i in s.phases && s.phases[i].Announced?
    ensures ViewInv(s.To(i, Listed(s.connected - {i})), i)
  {
  }

  /** The list that was sent is what the stream was told. */
  lemma SentIsTold(s: Streams, i: Id)
    requires s.Shaped() && i in s.phases && s.phases[i].Listed?
    ensures var t := s.To(i, Looping).(logs := s.logs[i := s.logs[i] + [Init(s.phases[i].peers)]]);
            t.Shaped() && Step(s, SendInit(i, true)) == Ok(t) && Told(t, i) == Told(s, i)
  {
    ReplayAppend(s.logs[i], Init(s.phases[i].peers));
  }

  lemma SameToldSameView(s: Streams, t: Streams, i: Id)
    requires s.Shaped() && t.Shaped() && i in s.phases && i in t.phases && t.phases == s.phases[i := t.phases[i]]
    requires ViewInv(s, i) && Told(t, i) == Told(s, i)
    ensures ViewInv(t, i)
  {
  }

  lemma InitKeepsView(s: Streams, i: Id)
    requires s.Shaped() && Step(s, SendInit(i, true)).Ok? && ViewInv(s, i)
    ensures ViewInv(Step(s, SendInit(i, true)).next, i)
  {
    SentIsTold(s, i);
    SameToldSameView(s, Step(s, SendInit(i, true)).next, i);
  }

  /** The receiver of an update is up to date about its sender. */
  lemma HandoverKeepsView(s: Streams, k: Id)
    requires Inv(s) && Step(s, Handover(k)).Ok?
    ensures ViewInv(Step(s, Handover(k)).next, s.phases[k].walk.target.value)
  {
    var i := s.phases[k].walk.target.value;
    assert ViewInv(s, i) && WalkInv(s, k, s.phases[k].walk);
    ReplayAppend(s.logs[i], if s.phases[k].Announcing? then Connect(k) else Disconnect(k));
  }

  lemma UnregisterKeepsView(s: Streams, k: Id, i: Id)
    requires Inv(s) && Step(s, Unregister(k)).Ok?
    requires i in s.phases && HasView(s.phases[i])
    ensures ViewInv(Step(s, Unregister(k)).next, i)
  {
    assert ViewInv(s, i);
  }

  /** A step of its own that leaves a stream with a view is the reading or the sending of its list. */
  lemma OwnViewKept(s: Streams, a: Action)
    requires Inv(s) && Step(s, a).Ok? && HasView(Step(s, a).next.phases[a.i])
    ensures Step(s, a).next.Shaped() && ViewInv(Step(s, a).next, a.i)
  {
    StepShaped(s, a);
    if a.List? {
      ListGivesView(s, a.i);
    } else {
      assert a == SendInit(a.i, true);
      InitKeepsView(s, a.i);
    }
  }

  /** A step other than a send or the closing of a channel moves one stream alone. */
  lemma OneMoves(s: Streams, a: Action, i: Id)
    requires s.Shaped() && Step(s, a).Ok? && !a.Unregister? && i in s.phases && i != a.i
    requires a.Handover? ==> s.phases[a.i].walk.target != Some(i)
    ensures var t := Step(s, a).next;
            t.Shaped() && a.i in t.phases && t.phases == s.phases[a.i := t.phases[a.i]] && t.logs[i] == s.logs[i]
  {
    StepShaped(s, a);
  }

  /** The views that do not hear of it need not. */
  lemma StillInformed(s: Streams, a: Action, i: Id)
    requires Inv(s) && Step(s, a).Ok? && !a.Unregister? && i in s.phases && i != a.i && HasView(s.phases[i])
    requires ViewInv(s, i) && a.i in s.phases && Informed(Told(s, i), i, a.i, s.phases[a.i])
    requires a.Handover? ==> s.phases[a.i].walk.target != Some(i)
    ensures a.i in Step(s, a).next.phases && Informed(Told(s, i), i, a.i, Step(s, a).next.phases[a.i])
  {
  }

  lemma ViewKept(s: Streams, a: Action, i: Id)
    requires Inv(s) && Step(s, a).Ok? && !a.Unregister?
    requires i in s.phases && HasView(Step(s, a).next.phases[i])
    ensures ViewInv(Step(s, a).next, i)
  {
    StepShaped(s, a);
    if i == a.i {
      OwnViewKept(s, a);
    } else if a.Handover? && s.phases[a.i].walk.target == Some(i) {
      HandoverKeepsView(s, a.i);
    } else {
      OneMoves(s, a, i);
      assert ViewInv(s, i);
      StillInformed(s, a, i);
      MoveKeepsView(s, Step(s, a).next, i, a.i);
    }
  }

  lemma InvKept(s: Streams, a: Action)
    requires Inv(s) && Step(s, a).Ok?
    ensures Inv(Step(s, a).next)
  {
    RegistryKept(s, a);
    WalksKept(s, a);
    var t := Step(s, a).next;
    forall i | i in t.phases && HasView(t.phases[i])
      ensures ViewInv(t, i)
    {
      if a.Unregister? {
        UnregisterKeepsView(s, a.i, i);
      } else {
        ViewKept(s, a, i);
      }
    }
  }

  lemma {:induction false} RunKeepsInv(s: Streams, actions: seq<Action>)
    requires Inv(s) && Run(s, actions).Some?
    ensures Inv(Run(s, actions).value)
    decreases |actions|
  {
    if actions != [] {
      InvKept(s, actions[0]);
      RunKeepsInv(Step(s, actions[0]).next, actions[1..]);
    }
  }

  lemma InitialHolds(s: Streams)
    requires Initial(s)
    ensures Inv(s)
  {
  }

  /** A channel that is added while a stream walks over the registry may still be visited, and the walk may as well end
      without it. */
  lemma LateChannel(s: Streams, i: Id, j: Id)
    requires s.Shaped() && i in s.phases && j in s.phases && i != j
    requires s.phases[i].Walking() && s.phases[i].walk.target == None && j !in s.phases[i].walk.visited
    requires s.phases[j] == Marked
    ensures var t := Run(s, [Register(j), Pick(i, j)]);
            && t.Some? && t.value.logs == s.logs
            && t.value.phases[i].Walking() && t.value.phases[i].walk.target == Some(j)
    ensures s.phases[i].walk.must <= s.phases[i].walk.visited ==>
              var end := if s.phases[i].Announcing? then FinishAnnounce(i) else FinishDepart(i);
              var t := Run(s, [Register(j), end]);
              && t.Some? && t.value.logs == s.logs
              && t.value.phases[i] == if s.phases[i].Announcing? then Announced else Idle
  {
    var added := s.To(j, Registered).(channels := s.channels + {j});
    var registered := [Register(j)];
    assert Run(s, []) == Some(s);
    RunMore(s, [], s, Register(j), added);
    assert [] + registered == registered;
    RunMore(s, registered, added, Pick(i, j), Step(added, Pick(i, j)).next);
    assert registered + [Pick(i, j)] == [Register(j), Pick(i, j)];
    if s.phases[i].walk.must <= s.phases[i].walk.visited {
      var end := if s.phases[i].Announcing? then FinishAnnounce(i) else FinishDepart(i);
      RunMore(s, registered, added, end, Step(added, end).next);
      assert registered + [end] == [Register(j), end];
    }
  }

  // ---------------------------------------------------------------------------------------------------------
  // Views converge
  // ---------------------------------------------------------------------------------------------------------

  lemma {:induction false} KnownByUpdate(log: seq<Update>, j: Id)
    requires j in Replay(log)
    ensures exists u | u in log :: u == Connect(j) || (u.Init? && j in u.peers)
    decreases |log|
  {
    var k := |log| - 1;
    var u := log[k];
    assert u in log;
    if !(u == Connect(j) || (u.Init? && j in u.peers)) {
      KnownByUpdate(log[..k], j);
      var v :| v in log[..k] && (v == Connect(j) || (v.Init? && j in v.peers));
      assert v in log;
    }
  }

  /** In every run, two streams that are both in their loops know of each other: each was sent a list with the other
      one or its CONNECT, and no DISCONNECT since. */
  lemma LoopingStreamsKnowEachOther(s: Streams, actions: seq<Action>, i: Id, j: Id)
    requires Initial(s) && Run(s, actions).Some? && i != j
    requires i in Run(s, actions).value.phases && Run(s, actions).value.phases[i] == Looping
    requires j in Run(s, actions).value.phases && Run(s, actions).value.phases[j] == Looping
    ensures var log := Run(s, actions).value.logs[i];
            j in Replay(log) && exists u | u in log :: u == Connect(j) || (u.Init? && j in u.peers)
  {
    InitialHolds(s);
    RunKeepsInv(s, actions);
    var t := Run(s, actions).value;
    assert ViewInv(t, i);
    KnownByUpdate(t.logs[i], j);
  }

  /** In every run, whenever no stream is connecting or disconnecting, replaying the updates sent on a stream gives
      exactly the set of the other connected peers, and those are the ones in their loops. */
  lemma ViewsConverge(s: Streams, actions: seq<Action>, i: Id)
    requires Initial(s) && Run(s, actions).Some?
    requires forall j | j in Run(s, actions).value.phases :: Run(s, actions).value.phases[j].Settled()
    requires i in Run(s, actions).value.phases && Run(s, actions).value.phases[i] == Looping
    ensures var t := Run(s, actions).value;
            && Replay(t.logs[i]) == t.connected - {i}
            && t.connected == set j | j in t.phases && t.phases[j] == Looping
  {
    InitialHolds(s);
    RunKeepsInv(s, actions);
    var t := Run(s, actions).value;
    assert ViewInv(t, i);
    forall j
      ensures j in Replay(t.logs[i]) <==> j in t.connected - {i}
    {
      if j in t.phases && j != i {
        assert Informed(Told(t, i), i, j, t.phases[j]);
      }
    }
  }
}
