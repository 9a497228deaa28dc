/** The code of a stream as it updates the controller's tables, run while no other stream is connecting or
    disconnecting.  Connecting and leaving are shown to be runs of the protocol, with their exact effect on every
    stream. */
module UpdateServer {
  import opened Options
  import opened UpdateStream

  /** What a walking stream tells the others. */
  function News(id: Id, phase: Phase): Update {
    if phase.Announcing? then Connect(id) else Disconnect(id)
  }

  /** A row of the peer table. */
  datatype Row = Row(id: Id, connected: bool)

  function ConnectedIds(rows: seq<Row>): set<Id> {
    set row | row in rows && row.connected :: row.id
  }

  function Ids(rows: seq<Row>): set<Id> {
    set row | row in rows :: row.id
  }

  lemma SameRow(before: seq<Row>, after: seq<Row>, id: Id, connected: bool, x: Id)
    requires |after| == |before| && id in Ids(before)
    requires forall k | 0 <= k < |before| ::
               after[k] == if before[k].id == id then Row(id, connected) else before[k]
    ensures x in Ids(after) <==> x in Ids(before)
    ensures x != id ==> (x in ConnectedIds(after) <==> x in ConnectedIds(before))
    ensures id in ConnectedIds(after) <==> connected
  {
    var own :| own in before && own.id == id;
    var m :| 0 <= m < |before| && before[m] == own;
    assert after[m] in after && after[m] == Row(id, connected);
    if r :| r in before && r.id == x {
      var k :| 0 <= k < |before| && before[k] == r;
      assert after[k] in after && after[k].id == x;
    }
    if r :| r in after && r.id == x {
      var k :| 0 <= k < |after| && after[k] == r;
      assert before[k] in before && before[k].id == x;
    }
    if x != id {
      if Row(x, true) in before {
        var k :| 0 <= k < |before| && before[k] == Row(x, true);
        assert after[k] in after;
      }
      if Row(x, true) in after {
        var k :| 0 <= k < |after| && after[k] == Row(x, true);
        assert before[k] in before;
      }
    }
  }

  lemma ColumnUpdated(before: seq<Row>, after: seq<Row>, id: Id, connected: bool)
    requires |after| == |before| && id in Ids(before)
    requires forall k | 0 <= k < |before| ::
               after[k] == if before[k].id == id then Row(id, connected) else before[k]
    ensures ConnectedIds(after) == if connected then ConnectedIds(before) + {id} else ConnectedIds(before) - {id}
    ensures Ids(after) == Ids(before)
  {
    var row :| row in before && row.id == id;
    var k :| 0 <= k < |before| && before[k] == row;
    assert after[k] in after;
    forall x
      ensures x in Ids(after) <==> x in Ids(before)
      ensures x in ConnectedIds(after) <==>
              x in if connected then ConnectedIds(before) + {id} else ConnectedIds(before) - {id}
    {
      SameRow(before, after, id, connected, x);
    }
  }

  predicate OneRowEach(rows: seq<Row>) {
    forall i, j | 0 <= i < j < |rows| :: rows[i].id != rows[j].id
  }

  function Notified(logs: map<Id, seq<Update>>, ids: set<Id>, news: Update): map<Id, seq<Update>> {
    map i | i in logs :: if i in ids then logs[i] + [news] else logs[i]
  }

  /** The effect of a stream that connects: every stream in its loop is told once, and the new one is sent the peers
      that were connected. */
  function Joined(s: Streams, id: Id): Streams
    requires s.Shaped()
  {
    Streams(s.phases[id := Looping], s.connected + {id}, s.channels + {id},
            Notified(s.logs, s.channels, Connect(id))[id := [Init(s.connected)]])
  }

  /** The effect of a stream that ends. */
  function Left(s: Streams, id: Id): Streams
    requires s.Shaped()
  {
    Streams(s.phases[id := Idle], s.connected - {id}, s.channels - {id},
            Notified(s.logs, s.channels - {id}, Disconnect(id)))
  }

  /** Some run of the protocol leads from s to t. */
  ghost predicate Reaches(s: Streams, t: Streams) {
    s.Shaped() && exists actions :: Run(s, actions) == Some(t)
  }

  lemma ReachesMore(s: Streams, t: Streams, actions: seq<Action>, u: Streams)
    requires Reaches(s, t) && t.Shaped() && Run(t, actions) == Some(u)
    ensures Reaches(s, u)
  {
    var before :| Run(s, before) == Some(t);
    RunConcat(s, before, actions);
  }

  lemma Then(s: Streams, t: Streams, a: Action, u: Streams)
    requires Reaches(s, t) && t.Shaped() && Step(t, a) == Ok(u)
    ensures Reaches(s, u) && u.Shaped()
  {
    StepShaped(t, a);
    assert [a][1..] == [] && Run(u, []) == Some(u);
    ReachesMore(s, t, [a], u);
  }

  /** `id` is about to walk over channels whose streams are all waiting for updates. */
  predicate Ready(s: Streams, id: Id) {
    && s.Shaped() && id in s.phases && s.phases[id].Walking()
    && s.phases[id].walk.target == None && s.phases[id].walk.visited == {}
    && id !in s.phases[id].walk.must && s.phases[id].walk.must <= s.channels
    && forall t | t in s.phases[id].walk.must :: t in s.phases && s.phases[t] == Looping
  }

  /** After `ids` were visited. */
  function Visited(s: Streams, id: Id, ids: set<Id>): Streams
    requires Ready(s, id)
  {
    var phase := s.phases[id];
    s.To(id, phase.WithWalk(Walk(phase.walk.must, ids, None))).(logs := Notified(s.logs, ids, News(id, phase)))
  }

  /** The stream is about to walk. */
  function JoinStart(s: Streams, id: Id): Streams
    requires s.Shaped()
  {
    Streams(s.phases[id := Announcing(Walk(s.channels - {id}, {}, None))], s.connected + {id}, s.channels + {id},
            s.logs[id := []])
  }

  lemma WalkStarts(s: Streams, registered: Streams, id: Id)
    requires Reaches(s, registered) && registered.Shaped() && id in s.phases && s.Shaped() && id !in s.channels
    requires registered.phases == s.phases[id := Registered]
    requires registered.connected == s.connected + {id} && registered.channels == s.channels + {id}
    requires registered.logs == s.logs[id := []]
    ensures Reaches(s, JoinStart(s, id))
  {
    assert s.channels + {id} - {id} == s.channels - {id};
    Then(s, registered, StartAnnounce(id), JoinStart(s, id));
  }

  lemma JoinStarts(s: Streams, id: Id)
    requires s.Shaped() && id in s.phases && s.phases[id] == Idle && id !in s.channels
    ensures Reaches(s, JoinStart(s, id))
  {
    assert Run(s, []) == Some(s);
    var marked := s.To(id, Marked).(connected := s.connected + {id}, logs := s.logs[id := []]);
    Then(s, s, Open(id), marked);
    var registered := marked.To(id, Registered).(channels := s.channels + {id});
    Then(s, marked, Register(id), registered);
    WalkStarts(s, registered, id);
  }

  lemma NotifiedMore(logs: map<Id, seq<Update>>, ids: set<Id>, t: Id, news: Update)
    requires t in logs && t !in ids
    ensures Notified(logs, {}, news) == logs
    ensures Notified(logs, ids, news)[t := Notified(logs, ids, news)[t] + [news]] == Notified(logs, ids + {t}, news)
  {
  }

  lemma RunTwo(s: Streams, a: Action, t: Streams, b: Action, u: Streams)
    requires s.Shaped() && Step(s, a) == Ok(t) && t.Shaped() && Step(t, b) == Ok(u)
    ensures Run(s, [a, b]) == Some(u)
  {
    StepShaped(s, a);
    StepShaped(t, b);
    assert [a, b][1..] == [b] && [b][1..] == [];
    assert Run(u, []) == Some(u);
    assert Run(t, [b]) == Some(u);
  }

  lemma VisitIsRun(s: Streams, id: Id, ids: set<Id>, t: Id)
    requires Ready(s, id) && t in s.phases[id].walk.must && t !in ids
    ensures Visited(s, id, ids).Shaped()
    ensures Run(Visited(s, id, ids), [Pick(id, t), Handover(id)]) == Some(Visited(s, id, ids + {t}))
  {
    var phase, v := s.phases[id], Visited(s, id, ids);
    var mid := v.To(id, phase.WithWalk(Walk(phase.walk.must, ids, Some(t))));
    NotifiedMore(s.logs, ids, t, News(id, phase));
    assert Step(v, Pick(id, t)) == Ok(mid);
    assert Step(mid, Handover(id)) == Ok(Visited(s, id, ids + {t}));
    RunTwo(v, Pick(id, t), mid, Handover(id), Visited(s, id, ids + {t}));
  }

  lemma NothingVisited(s: Streams, id: Id)
    requires Ready(s, id)
    ensures Visited(s, id, {}) == s && Reaches(s, s)
  {
    assert Notified(s.logs, {}, News(id, s.phases[id])) == s.logs;
    assert Run(s, []) == Some(s);
  }

  lemma {:induction false} AnnounceIsRun(s: Streams, id: Id, ids: set<Id>)
    requires Ready(s, id) && ids <= s.phases[id].walk.must
    ensures Reaches(s, Visited(s, id, ids))
    decreases |ids|
  {
    if ids == {} {
      NothingVisited(s, id);
    } else {
      var t :| t in ids;
      var before := ids - {t};
      AnnounceIsRun(s, id, before);
      VisitIsRun(s, id, before, t);
      assert before + {t} == ids;
      ReachesMore(s, Visited(s, id, before), [Pick(id, t), Handover(id)], Visited(s, id, ids));
    }
  }

  /** Idle peers have no channel, and all others that do are waiting for updates. */
  lemma ReadyToJoin(s: Streams, id: Id)
    requires Inv(s) && id in s.phases && s.phases[id] == Idle
    requires forall j | j in s.phases && j != id :: s.phases[j].Settled()
    ensures id !in s.channels && id !in s.connected && Ready(JoinStart(s, id), id)
  {
  }

  lemma ListingIsRead(s: Streams, t: Streams, id: Id)
    requires t.Shaped() && id in t.phases && id !in s.connected && t.connected == s.connected + {id}
    requires Reaches(s, t.To(id, Announced))
    ensures Reaches(s, t.To(id, Listed(s.connected)))
  {
    assert t.connected - {id} == s.connected;
    assert t.To(id, Announced).To(id, Listed(s.connected)) == t.To(id, Listed(s.connected));
    Then(s, t.To(id, Announced), List(id, true), t.To(id, Listed(s.connected)));
  }

  /** From the end of its walk the new stream reads the list... */
  lemma JoinLists(s: Streams, id: Id)
    requires s.Shaped() && id in s.phases && id !in s.channels && id !in s.connected && Ready(JoinStart(s, id), id)
    requires Reaches(s, Visited(JoinStart(s, id), id, s.channels))
    ensures Reaches(s, Visited(JoinStart(s, id), id, s.channels).To(id, Listed(s.connected)))
  {
    var visited := Visited(JoinStart(s, id), id, s.channels);
    assert s.channels - {id} == s.channels;
    Then(s, visited, FinishAnnounce(id), visited.To(id, Announced));
    ListingIsRead(s, visited, id);
  }

  lemma JoinedByParts(s: Streams, id: Id, t: Streams)
    requires s.Shaped() && id in s.phases && id !in s.channels && id !in s.connected && Ready(JoinStart(s, id), id)
    requires t.phases == Visited(JoinStart(s, id), id, s.channels).phases[id := Looping]
    requires t.connected == s.connected + {id} && t.channels == s.channels + {id}
    requires t.logs == Visited(JoinStart(s, id), id, s.channels).logs[id := [Init(s.connected)]]
    ensures t == Joined(s, id)
  {
    assert t.logs == Joined(s, id).logs;
  }

  /** ... and goes straight to its loop. */
  lemma JoinEnds(s: Streams, id: Id)
    requires s.Shaped() && id in s.phases && id !in s.channels && id !in s.connected && Ready(JoinStart(s, id), id)
    requires Reaches(s, Visited(JoinStart(s, id), id, s.channels).To(id, Listed(s.connected)))
    ensures Reaches(s, Joined(s, id))
  {
    var listed := Visited(JoinStart(s, id), id, s.channels).To(id, Listed(s.connected));
    assert listed.logs[id] == [] && [] + [Init(s.connected)] == [Init(s.connected)];
    var joined := listed.To(id, Looping).(logs := listed.logs[id := [Init(s.connected)]]);
    Then(s, listed, SendInit(id, true), joined);
    JoinedByParts(s, id, joined);
  }

  lemma ReachesTrans(s: Streams, t: Streams, u: Streams)
    requires Reaches(s, t) && Reaches(t, u)
    ensures Reaches(s, u)
  {
    var more :| Run(t, more) == Some(u);
    ReachesMore(s, t, more, u);
  }

  lemma ReachesKeepsInv(s: Streams, t: Streams)
    requires Inv(s) && Reaches(s, t)
    ensures Inv(t)
  {
    var actions :| Run(s, actions) == Some(t);
    RunKeepsInv(s, actions);
  }

  lemma JoinIsRun(s: Streams, id: Id)
    requires Inv(s) && id in s.phases && s.phases[id] == Idle
    requires forall j | j in s.phases && j != id :: s.phases[j].Settled()
    ensures id !in s.channels && id !in s.connected && Ready(JoinStart(s, id), id)
    ensures Reaches(s, Joined(s, id)) && Inv(Joined(s, id))
  {
    ReadyToJoin(s, id);
    JoinStarts(s, id);
    assert s.channels - {id} == s.channels;
    AnnounceIsRun(JoinStart(s, id), id, s.channels);
    ReachesTrans(s, JoinStart(s, id), Visited(JoinStart(s, id), id, s.channels));
    JoinLists(s, id);
    JoinEnds(s, id);
    ReachesKeepsInv(s, Joined(s, id));
  }

  /** The stream is about to walk, its channel closed. */
  function LeaveStart(s: Streams, id: Id): Streams
    requires s.Shaped()
  {
    Streams(s.phases[id := Departing(Walk(s.channels - {id}, {}, None))], s.connected - {id}, s.channels - {id}, s.logs)
  }

  lemma ReadyToLeave(s: Streams, id: Id)
    requires Inv(s) && id in s.phases && s.phases[id] == Looping
    requires forall j | j in s.phases && j != id :: s.phases[j].Settled()
    ensures Ready(LeaveStart(s, id), id)
  {
  }

  /** Nobody is walking, so nobody is blocked on the channel that is closed. */
  lemma QuietClose(s: Streams, id: Id)
    requires s.Shaped() && id in s.phases && s.phases[id] == Looping
    requires forall j | j in s.phases && j != id :: s.phases[j].Settled()
    ensures Step(s.To(id, Leaving), Unregister(id)) == Ok(s.To(id, Unregistered).(channels := s.channels - {id}))
  {
  }

  lemma LeaveStarts(s: Streams, id: Id)
    requires s.Shaped() && id in s.phases && s.phases[id] == Looping
    requires Step(s.To(id, Leaving), Unregister(id)) == Ok(s.To(id, Unregistered).(channels := s.channels - {id}))
    ensures Reaches(s, s.To(id, Unregistered).(channels := s.channels - {id}))
  {
    assert Run(s, []) == Some(s);
    Then(s, s, Hangup(id), s.To(id, Leaving));
    Then(s, s.To(id, Leaving), Unregister(id), s.To(id, Unregistered).(channels := s.channels - {id}));
  }

  lemma LeaveWalks(s: Streams, id: Id)
    requires s.Shaped() && id in s.phases
    requires Reaches(s, s.To(id, Unregistered).(channels := s.channels - {id}))
    ensures Reaches(s, LeaveStart(s, id))
  {
    var unregistered := s.To(id, Unregistered).(channels := s.channels - {id});
    var unmarked := unregistered.To(id, Unmarked).(connected := s.connected - {id});
    Then(s, unregistered, Unmark(id), unmarked);
    assert s.channels - {id} - {id} == s.channels - {id};
    var start := unmarked.To(id, Departing(Walk(s.channels - {id}, {}, None)));
    Then(s, unmarked, StartDepart(id), start);
    assert start == LeaveStart(s, id);
  }

  lemma LeftByParts(s: Streams, id: Id)
    requires s.Shaped() && id in s.phases && Ready(LeaveStart(s, id), id)
    ensures Visited(LeaveStart(s, id), id, s.channels - {id}).To(id, Idle) == Left(s, id)
  {
  }

  lemma LeaveEnds(s: Streams, id: Id)
    requires s.Shaped() && id in s.phases && Ready(LeaveStart(s, id), id)
    requires Reaches(s, Visited(LeaveStart(s, id), id, s.channels - {id}))
    ensures Reaches(s, Left(s, id))
  {
    var visited := Visited(LeaveStart(s, id), id, s.channels - {id});
    Then(s, visited, FinishDepart(id), visited.To(id, Idle));
    LeftByParts(s, id);
  }

  lemma LeaveIsRun(s: Streams, id: Id)
    requires Inv(s) && id in s.phases && s.phases[id] == Looping
    requires forall j | j in s.phases && j != id :: s.phases[j].Settled()
    ensures Ready(LeaveStart(s, id), id)
    ensures Reaches(s, Left(s, id)) && Inv(Left(s, id))
  {
    ReadyToLeave(s, id);
    QuietClose(s, id);
    LeaveStarts(s, id);
    LeaveWalks(s, id);
    AnnounceIsRun(LeaveStart(s, id), id, s.channels - {id});
    ReachesTrans(s, LeaveStart(s, id), Visited(LeaveStart(s, id), id, s.channels - {id}));
    LeaveEnds(s, id);
    ReachesKeepsInv(s, Left(s, id));
  }

  /** What a connect comes to: the stream of id is in its loop and was sent the peers that were connected, every stream
      that had a channel was sent the news once, and nothing else has changed. */
  predicate Connected(s: Streams, t: Streams, id: Id)
    requires s.Shaped() && t.Shaped()
  {
    && t.phases.Keys == s.phases.Keys + {id}
    && t.connected == s.connected + {id} && t.channels == s.channels + {id}
    && forall j | j in t.phases ::
         if j == id then t.phases[j].Looping? && t.logs[j] == [Init(s.connected)]
         else t.phases[j] == s.phases[j] && t.logs[j] == s.logs[j] + if j in s.channels then [Connect(id)] else []
  }

  /** What a disconnect comes to, likewise. */
  predicate Disconnected(s: Streams, t: Streams, id: Id)
    requires s.Shaped() && t.Shaped() && id in s.phases
  {
    && t.phases.Keys == s.phases.Keys
    && t.connected == s.connected - {id} && t.channels == s.channels - {id}
    && forall j | j in t.phases ::
         if j == id then t.phases[j].Idle? && t.logs[j] == s.logs[j]
         else t.phases[j] == s.phases[j] && t.logs[j] == s.logs[j] + if j in s.channels then [Disconnect(id)] else []
  }

  lemma JoinConnects(s: Streams, id: Id)
    requires s.Shaped() && id in s.phases && id !in s.channels
    ensures Joined(s, id).Shaped() && Connected(s, Joined(s, id), id)
  {
  }

  lemma LeaveDisconnects(s: Streams, id: Id)
    requires s.Shaped() && id in s.phases
    ensures Left(s, id).Shaped() && Disconnected(s, Left(s, id), id)
  {
  }

  class Controller {
    var rows: seq<Row>
    var peerChannels: set<Id>
    var phases: map<Id, Phase>
    var logs: map<Id, seq<Update>>

    ghost function View(): Streams
      reads this
    {
      Streams(phases, ConnectedIds(rows), peerChannels, logs)
    }

    /** The protocol's invariant, with one row per peer. */
    ghost predicate Valid()
      reads this
    {
      && Inv(View())
      && phases.Keys == Ids(rows)
      && OneRowEach(rows)
    }

    method SetPeerConnected(id: Id, connected: bool)
      modifies this`rows
      ensures |rows| == |old(rows)|
      ensures forall k | 0 <= k < |rows| ::
                rows[k] == if old(rows)[k].id == id then Row(id, connected) else old(rows)[k]
    {
      rows := seq(|rows|, k requires 0 <= k < |rows| reads this =>
        if rows[k].id == id then Row(id, connected) else rows[k]);
    }

    /** The ids of the connected peers but `id`, in table order and each once. */
    method GetConnectedPeers(id: Id) returns (peerList: seq<Id>, count: nat)
      ensures count == |peerList|
      ensures forall p :: p in peerList <==> p in ConnectedIds(rows) - {id}
      ensures OneRowEach(rows) ==> forall i, j | 0 <= i < j < |peerList| :: peerList[i] != peerList[j]
    {
      peerList := [];
      for k := 0 to |rows|
        invariant forall p :: p in peerList <==> exists m | 0 <= m < k :: rows[m] == Row(p, true) && p != id
        invariant OneRowEach(rows) ==> forall i, j | 0 <= i < j < |peerList| :: peerList[i] != peerList[j]
      {
        if rows[k].connected && rows[k].id != id {
          peerList := peerList + [rows[k].id];
        }
      }
      count := |peerList|;
    }

    /** The walk of an announcement while all its receivers are waiting for updates: every other channel gets the news
        exactly once. */
    method Announce(id: Id)
      requires Ready(View(), id)
      modifies this`phases, this`logs
      ensures View() == Visited(old(View()), id, old(phases[id].walk.must))
    {
      var phase, start := phases[id], logs;
      var visited, todo := {}, phase.walk.must;
      while todo != {}
        invariant visited + todo == phase.walk.must && visited !! todo
        invariant phases == old(phases)[id := phase.WithWalk(Walk(phase.walk.must, visited, None))]
        invariant logs == Notified(start, visited, News(id, phase))
        decreases todo
      {
        var t :| t in todo;
        NotifiedMore(start, visited, t, News(id, phase));
        logs := logs[t := logs[t] + [News(id, phase)]];
        todo, visited := todo - {t}, visited + {t};
        phases := phases[id := phase.WithWalk(Walk(phase.walk.must, visited, None))];
      }
      assert visited == phase.walk.must;
    }

    /** A stream from its request to the announcement of its peer. */
    method EnterStream(id: Id)
      requires View().Shaped() && id in Ids(rows) && id in phases
      modifies this
      ensures View() == JoinStart(old(View()), id)
      ensures Ids(rows) == Ids(old(rows)) && (OneRowEach(old(rows)) ==> OneRowEach(rows))
    {
      SetPeerConnected(id, true);
      ColumnUpdated(old(rows), rows, id, true);
      logs := logs[id := []];
      peerChannels := peerChannels + {id};
      assert peerChannels - {id} == old(peerChannels) - {id};
      phases := phases[id := Announcing(Walk(peerChannels - {id}, {}, None))];
    }

    /** A stream after it has announced its peer, until it waits for updates. */
    method SendPeerList(id: Id)
      requires View().Shaped() && id in phases && phases[id].Announcing? && logs[id] == []
      modifies this`phases, this`logs
      ensures phases == old(phases)[id := Looping]
      ensures logs == old(logs)[id := [Init(ConnectedIds(rows) - {id})]]
    {
      phases := phases[id := Announced];
      var peerList, count := GetConnectedPeers(id);
      var peers := set p | p in peerList;
      assert peers == ConnectedIds(rows) - {id};
      phases := phases[id := Listed(peers)];
      assert logs[id] + [Init(peers)] == [Init(peers)];
      logs := logs[id := logs[id] + [Init(peers)]];
      phases := phases[id := Looping];
    }

    method Join(id: Id)
      requires View().Shaped() && id in phases && id in Ids(rows) && Ready(JoinStart(View(), id), id)
      requires id !in peerChannels && id !in ConnectedIds(rows)
      modifies this
      ensures View() == Joined(old(View()), id)
      ensures Ids(rows) == Ids(old(rows)) && (OneRowEach(old(rows)) ==> OneRowEach(rows))
    {
      ghost var s := View();
      EnterStream(id);
      assert s.channels - {id} == s.channels;
      Announce(id);
      assert View() == Visited(JoinStart(s, id), id, s.channels);
      assert logs[id] == [];
      SendPeerList(id);
      assert s.connected + {id} - {id} == s.connected;
      JoinedByParts(s, id, View());
    }

    /** A stream from its request until it waits for updates. */
    method ConnectStream(id: Id)
      requires Valid() && id in phases && phases[id] == Idle
      requires forall j | j in phases && j != id :: phases[j].Settled()
      modifies this
      ensures Valid() && View() == Joined(old(View()), id) && Reaches(old(View()), View())
      ensures Connected(old(View()), View(), id)
    {
      JoinIsRun(View(), id);
      JoinConnects(View(), id);
      Join(id);
    }

    /** The cleanup of a stream, up to the announcement of its departure. */
    method ExitStream(id: Id)
      requires View().Shaped() && id in Ids(rows) && id in phases
      modifies this
      ensures View() == LeaveStart(old(View()), id)
      ensures Ids(rows) == Ids(old(rows)) && (OneRowEach(old(rows)) ==> OneRowEach(rows))
    {
      peerChannels := peerChannels - {id};
      SetPeerConnected(id, false);
      ColumnUpdated(old(rows), rows, id, false);
      assert peerChannels - {id} == peerChannels;
      phases := phases[id := Departing(Walk(peerChannels - {id}, {}, None))];
    }

    /** The deferred cleanup. */
    method Cleanup(id: Id)
      requires View().Shaped() && id in phases && id in Ids(rows) && Ready(LeaveStart(View(), id), id)
      modifies this
      ensures View() == Left(old(View()), id)
      ensures Ids(rows) == Ids(old(rows)) && (OneRowEach(old(rows)) ==> OneRowEach(rows))
    {
      ghost var s := View();
      ExitStream(id);
      Announce(id);
      LeftByParts(s, id);
      phases := phases[id := Idle];
    }

    /** A stream whose client is gone, to its end. */
    method DisconnectStream(id: Id)
      requires Valid() && id in phases && phases[id] == Looping
      requires forall j | j in phases && j != id :: phases[j].Settled()
      modifies this
      ensures Valid() && View() == Left(old(View()), id) && Reaches(old(View()), View())
      ensures Disconnected(old(View()), View(), id)
    {
      LeaveIsRun(View(), id);
      LeaveDisconnects(View(), id);
      Cleanup(id);
    }
  }
}
