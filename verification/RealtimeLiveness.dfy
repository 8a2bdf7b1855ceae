/**
 When a live connection keeps trying, and the exact ways in which it stops.
 */
module RealtimeLiveness {
  import opened Options
  import opened RealtimeModel
  import opened RealtimeSafety

  /** The connection is up, is being set up, or will be retried. */
  predicate Trying(v: Conn) {
    v.connected || v.connecting || v.timer.Some?
  }

  // ---- A connection that is asked tries ----

  lemma ConnectRealtimeTries(s: State, c: ServerConnection)
    requires Current(s, c) && HasToken(s, s.conns[c].serverId)
    ensures c in ConnectRealtime(s, c).conns && Trying(ConnectRealtime(s, c).conns[c])
  {
    var s1 := CloseSource(s, c);
    assert Current(s1, c);
  }

  // ---- What leaves a connection alone ----

  /** The live connection an event is about. */
  predicate Concerns(s: State, e: Event, c: ServerConnection) {
    match e
    case ConnectServer(id, _, _) => id !in s.inFlight && id in s.connections && s.connections[id] == c
    case ConnectLocal(_, _) =>
      && LOCAL_SERVER_ID !in s.inFlight && s.localToken
      && LOCAL_SERVER_ID in s.connections && s.connections[LOCAL_SERVER_ID] == c
    case DisconnectServer(id) => id in s.connections && s.connections[id] == c
    case _ => BelongsTo(s, e, c)
  }

  /** c's fields are the same, and so are its session requests. */
  ghost predicate Same(s: State, r: State, c: ServerConnection) {
    SameRecord(s.conns, s.posts, r.conns, r.posts, c)
  }

  ghost predicate SameRecord(conns: Records, posts: map<Handle, ServerConnection>,
                             conns': Records, posts': map<Handle, ServerConnection>, c: ServerConnection) {
    && c in conns && c in conns' && conns'[c] == conns[c]
    && (forall p :: p in posts && posts[p] == c ==> p in posts' && posts'[p] == c)
    && (forall p :: p in posts' && posts'[p] == c ==> p in posts && posts[p] == c)
  }

  predicate AtMostOnePost(s: State, r: State, d: ServerConnection) {
    r.posts == s.posts || r.posts == s.posts[s.next := d]
  }

  lemma LocalLeaves(s: State, r: State, d: ServerConnection, c: ServerConnection)
    requires d in s.conns && c in s.conns && c != d && Local(s, r, d)
    requires r.posts == s.posts || (AtMostOnePost(s, r, d) && s.next !in s.posts)
    ensures Same(s, r, c)
  {
  }

  lemma ConnectRealtimePosts(s: State, d: ServerConnection)
    requires d in s.conns
    ensures AtMostOnePost(s, ConnectRealtime(s, d), d)
  {
    var s1 := CloseSource(s, d);
    if !Current(s1, d) || Busy(s1.conns[d]) || !HasToken(s1, s1.conns[d].serverId) || Covered(s1, d) {
      assert ConnectRealtime(s, d).posts == s.posts;
    } else {
      assert ConnectRealtime(s, d).posts == s.posts[s.next := d];
    }
  }

  lemma NextIsNew(s: State)
    requires Inv(s)
    ensures s.next !in s.posts
  {
  }

  lemma ConnectRealtimeLeaves(s: State, d: ServerConnection, c: ServerConnection)
    requires Inv(s) && d in s.conns && c in s.conns && c != d
    ensures Same(s, ConnectRealtime(s, d), c)
  {
    ConnectRealtimeKeeps(s, d);
    ConnectRealtimePosts(s, d);
    NextIsNew(s);
    LocalLeaves(s, ConnectRealtime(s, d), d, c);
  }

  lemma CreateLeaves(s: State, id: string, url: string, made: ServerConnection, c: ServerConnection)
    requires Inv(s) && made !in s.conns && id !in s.connections && c in s.conns
    requires id in s.inFlight ==> s.inFlight[id].Settled?
    ensures Same(s, CreateConnection(s, id, url, made), c)
  {
    InsertKeeps(s, id, url, made);
    ConnectRealtimeLeaves(Insert(s, id, url, made), made, c);
  }

  lemma RejoinLeaves(s: State, id: string, c: ServerConnection)
    requires Inv(s) && id in s.connections && c in s.conns && c != s.connections[id]
    ensures Same(s, Rejoin(s, id), c)
  {
    var d := s.connections[id];
    RejoinKeeps(s, id);
    ConnectRealtimePosts(Put(s, d, s.conns[d].(allow := true)), d);
    NextIsNew(s);
    LocalLeaves(s, Rejoin(s, id), d, c);
  }

  lemma NothingLeaves(s: State, r: State, c: ServerConnection)
    requires c in s.conns && r.conns == s.conns && r.posts == s.posts
    ensures Same(s, r, c)
  {
  }

  lemma NewServerLeaves(s: State, id: string, can: bool, made: Option<ServerConnection>, c: ServerConnection)
    requires Inv(s) && New(s, made) && c in s.conns && id !in s.inFlight && id !in s.connections
    ensures Same(s, DoConnectServer(s, id, can, made), c)
  {
    if id in s.servers && s.servers[id].token && made.Some? {
      CreateLeaves(s, id, s.servers[id].url, made.value, c);
    } else {
      NothingLeaves(s, DoConnectServer(s, id, can, made), c);
    }
  }

  lemma ConnectServerLeaves(s: State, id: string, can: bool, made: Option<ServerConnection>, c: ServerConnection)
    requires Inv(s) && New(s, made) && c in s.conns && !Concerns(s, ConnectServer(id, can, made), c)
    ensures Same(s, DoConnectServer(s, id, can, made), c)
  {
    if id in s.inFlight {
      NothingLeaves(s, s, c);
    } else if id in s.connections {
      RejoinLeaves(s, id, c);
    } else {
      NewServerLeaves(s, id, can, made, c);
    }
  }

  lemma AuthDoneLeaves(s: State, id: string, ok: bool, made: Option<ServerConnection>, c: ServerConnection)
    requires Inv(s) && id in s.inFlight && s.inFlight[id].Authenticating? && New(s, made) && c in s.conns
    ensures Same(s, DoAuthDone(s, id, ok, made), c)
  {
    if ok && made.Some? {
      var servers := if id in s.servers then s.servers[id := s.servers[id].(token := true)] else s.servers;
      var s1 := s.(inFlight := s.inFlight[id := Settled]).(localToken := true, servers := servers);
      OutsideKeeps(s, s1);
      CreateLeaves(s1, id, s.inFlight[id].url, made.value, c);
    }
  }

  lemma ConnectLocalLeaves(s: State, url: string, made: Option<ServerConnection>, c: ServerConnection)
    requires Inv(s) && New(s, made) && c in s.conns && !Concerns(s, ConnectLocal(url, made), c)
    ensures Same(s, DoConnectLocal(s, url, made), c)
  {
    var id := LOCAL_SERVER_ID;
    if id in s.inFlight || !s.localToken || (id !in s.connections && made.None?) {
    } else if id in s.connections {
      RejoinLeaves(s, id, c);
    } else {
      CreateLeaves(s, id, url, made.value, c);
    }
  }

  lemma PostDoneLeaves(s: State, p: Handle, reply: Reply, c: ServerConnection)
    requires Inv(s) && p in s.posts && c in s.conns && c != s.posts[p]
    ensures Same(s, DoPostDone(s, p, reply), c)
  {
    PostDoneKeeps(s, p, reply);
    PostDonePosts(s, p, reply);
  }

  lemma PostDonePosts(s: State, p: Handle, reply: Reply)
    requires p in s.posts && s.posts[p] in s.conns
    ensures DoPostDone(s, p, reply).posts == s.posts - {p}
  {
  }

  lemma DropAndRetryPosts(s: State, c: ServerConnection)
    requires c in s.conns
    ensures DropAndRetry(s, c).posts == s.posts
  {
  }

  lemma HandlePayloadPosts(s: State, c: ServerConnection, op: Op)
    requires c in s.conns
    ensures HandlePayload(s, c, op).posts == s.posts
  {
  }

  lemma MessageLeaves(s: State, h: Handle, c: ServerConnection)
    requires Inv(s) && h in s.streams && c in s.conns && c != s.streams[h].conn
    ensures Same(s, DoStreamMessage(s, h), c)
  {
    var d := s.streams[h].conn;
    StreamMessageKeeps(s, h);
    var log := Log(s, s.conns[d].serverUrl);
    var n := UpTo(log, s.streams[h].after);
    if n < |log| {
      HandlePayloadPosts(Received(s, h, log[n]), d, log[n].op);
    }
    LocalLeaves(s, DoStreamMessage(s, h), d, c);
  }

  lemma StreamOpenLeaves(s: State, h: Handle, c: ServerConnection)
    requires Inv(s) && h in s.streams && c in s.conns && c != s.streams[h].conn
    ensures Same(s, DoStreamOpen(s, h), c)
  {
    StreamOpenKeeps(s, h);
    LocalLeaves(s, DoStreamOpen(s, h), s.streams[h].conn, c);
  }

  lemma StreamErrorLeaves(s: State, h: Handle, c: ServerConnection)
    requires Inv(s) && h in s.streams && c in s.conns && c != s.streams[h].conn
    ensures Same(s, DoStreamError(s, h), c)
  {
    StreamErrorKeeps(s, h);
    DropAndRetryPosts(s, s.streams[h].conn);
    LocalLeaves(s, DoStreamError(s, h), s.streams[h].conn, c);
  }

  lemma TimerLeaves(s: State, t: Handle, c: ServerConnection)
    requires Inv(s) && t in s.timers && c in s.conns && c != s.timers[t].conn
    ensures Same(s, DoTimerFires(s, t), c)
  {
    var d := s.timers[t].conn;
    TimerFiresKeeps(s, t);
    ConnectRealtimePosts(Put(s, d, s.conns[d].(timer := None)).(timers := s.timers - {t}), d);
    NextIsNew(s);
    LocalLeaves(s, DoTimerFires(s, t), d, c);
  }

  lemma OthersLeave(s: State, e: Event, c: ServerConnection)
    requires Inv(s) && Enabled(s, e) && c in s.conns && !Concerns(s, e, c)
    ensures Same(s, Step(s, e), c)
  {
    match e
    case ConnectServer(id, can, made) => ConnectServerLeaves(s, id, can, made, c);
    case AuthDone(id, ok, made) => AuthDoneLeaves(s, id, ok, made, c);
    case ConnectLocal(url, made) => ConnectLocalLeaves(s, url, made, c);
    case _ => CallbacksLeave(s, e, c);
  }

  lemma CallbacksLeave(s: State, e: Event, c: ServerConnection)
    requires Inv(s) && Enabled(s, e) && c in s.conns && !Concerns(s, e, c)
    requires !e.ConnectServer? && !e.AuthDone? && !e.ConnectLocal?
    ensures Same(s, Step(s, e), c)
  {
    match e
    case PostDone(p, reply) => PostDoneLeaves(s, p, reply, c);
    case StreamOpen(h) => StreamOpenLeaves(s, h, c);
    case StreamMessage(h) => MessageLeaves(s, h, c);
    case StreamError(h) => StreamErrorLeaves(s, h, c);
    case TimerFires(t) => TimerLeaves(s, t, c);
    case _ =>
  }

  // ---- A new connection tries ----

  lemma CreateTries(s: State, id: string, url: string, made: ServerConnection)
    requires Inv(s) && made !in s.conns && id !in s.connections && HasToken(s, id)
    ensures made in CreateConnection(s, id, url, made).conns && Trying(CreateConnection(s, id, url, made).conns[made])
  {
    ConnectRealtimeTries(Insert(s, id, url, made), made);
  }

  lemma TokensUnmoved(s: State, c: ServerConnection)
    requires c in s.conns
    ensures ConnectRealtime(s, c).servers == s.servers && ConnectRealtime(s, c).localToken == s.localToken
  {
    var s1 := CloseSource(s, c);
    if !Current(s1, c) || Busy(s1.conns[c]) || !HasToken(s1, s1.conns[c].serverId) {
    } else if Covered(s1, c) {
    } else {
      assert ConnectRealtime(s, c) == StartSession(ClearTimer(s1, c), c);
    }
  }

  /** What creating a connection does to the map and to the tokens. */
  lemma CreateFrame(s: State, id: string, url: string, made: ServerConnection)
    requires Inv(s) && made !in s.conns && id !in s.connections
    requires id in s.inFlight ==> s.inFlight[id].Settled?
    ensures var r := CreateConnection(s, id, url, made);
            r.connections == s.connections[id := made] && r.servers == s.servers && r.localToken == s.localToken
  {
    CreateKeepsTasks(s, id, url, made);
    TokensUnmoved(Insert(s, id, url, made), made);
  }

  /** id is live and its connection keeps trying. */
  predicate TryingAt(s: State, id: string) {
    id in s.connections && s.connections[id] in s.conns && Trying(s.conns[s.connections[id]])
  }

  lemma ConnectServerNew(s: State, id: string, can: bool, made: Option<ServerConnection>)
    requires Inv(s) && New(s, made) && id !in s.connections && id !in s.inFlight
    ensures var r := DoConnectServer(s, id, can, made);
            && r.connections.Keys <= s.connections.Keys + {id}
            && (id in r.connections && HasToken(r, id) ==> TryingAt(r, id))
  {
    if id in s.servers && s.servers[id].token && made.Some? {
      CreateFrame(s, id, s.servers[id].url, made.value);
      if HasToken(s, id) {
        CreateTries(s, id, s.servers[id].url, made.value);
      }
    }
  }

  lemma AuthDoneNew(s: State, id: string, ok: bool, made: Option<ServerConnection>)
    requires Inv(s) && id in s.inFlight && s.inFlight[id].Authenticating? && New(s, made)
    ensures var r := DoAuthDone(s, id, ok, made);
            && r.connections.Keys <= s.connections.Keys + {id}
            && (id in r.connections && HasToken(r, id) ==> TryingAt(r, id))
  {
    if ok && made.Some? {
      var servers := if id in s.servers then s.servers[id := s.servers[id].(token := true)] else s.servers;
      var s1 := s.(inFlight := s.inFlight[id := Settled]).(localToken := true, servers := servers);
      OutsideKeeps(s, s1);
      CreatedTries(s1, id, s.inFlight[id].url, made.value);
    }
  }

  lemma CreatedTries(s: State, id: string, url: string, made: ServerConnection)
    requires Inv(s) && made !in s.conns && id !in s.connections
    requires id in s.inFlight ==> s.inFlight[id].Settled?
    ensures var r := CreateConnection(s, id, url, made);
            r.connections.Keys == s.connections.Keys + {id} && (HasToken(r, id) ==> TryingAt(r, id))
  {
    CreateFrame(s, id, url, made);
    if HasToken(s, id) {
      CreateTries(s, id, url, made);
    }
  }

  lemma ConnectLocalNew(s: State, url: string, made: Option<ServerConnection>)
    requires Inv(s) && New(s, made) && LOCAL_SERVER_ID !in s.connections
    ensures var r := DoConnectLocal(s, url, made);
            && r.connections.Keys <= s.connections.Keys + {LOCAL_SERVER_ID}
            && (LOCAL_SERVER_ID in r.connections ==> TryingAt(r, LOCAL_SERVER_ID))
  {
    if LOCAL_SERVER_ID !in s.inFlight && s.localToken && made.Some? {
      CreateFrame(s, LOCAL_SERVER_ID, url, made.value);
      CreateTries(s, LOCAL_SERVER_ID, url, made.value);
    }
  }

  lemma RejoinFrame(s: State, id: string)
    requires Inv(s) && id in s.connections
    ensures Rejoin(s, id).connections == s.connections
  {
    RejoinKeeps(s, id);
  }

  lemma NewByServerTries(s: State, x: string, can: bool, made: Option<ServerConnection>, id: string)
    requires Inv(s) && New(s, made) && id !in s.connections
    requires var r := DoConnectServer(s, x, can, made); id in r.connections && HasToken(r, id)
    ensures TryingAt(DoConnectServer(s, x, can, made), id)
  {
    if x in s.inFlight {
    } else if x in s.connections {
      RejoinFrame(s, x);
    } else {
      ConnectServerNew(s, x, can, made);
    }
  }

  lemma NewByLocalTries(s: State, url: string, made: Option<ServerConnection>, id: string)
    requires Inv(s) && New(s, made) && id !in s.connections && id in DoConnectLocal(s, url, made).connections
    ensures TryingAt(DoConnectLocal(s, url, made), id)
  {
    if LOCAL_SERVER_ID in s.connections {
      RejoinFrame(s, LOCAL_SERVER_ID);
    } else {
      ConnectLocalNew(s, url, made);
    }
  }

  lemma NewConnectionTries(s: State, e: Event, id: string)
    requires Inv(s) && Enabled(s, e) && id !in s.connections && id in Step(s, e).connections
    requires HasToken(Step(s, e), id)
    ensures TryingAt(Step(s, e), id)
  {
    if e.ConnectServer? { NewByServerTries(s, e.id, e.canUseChallengeAuth, e.made, id); }
    else if e.AuthDone? { AuthDoneNew(s, e.id, e.ok, e.made); }
    else if e.ConnectLocal? { NewByLocalTries(s, e.url, e.made, id); }
    else { NoNewConnection(s, e, id); }
  }

  lemma NoNewConnection(s: State, e: Event, id: string)
    requires Inv(s) && Enabled(s, e) && !e.ConnectServer? && !e.AuthDone? && !e.ConnectLocal?
    requires id !in s.connections
    ensures id !in Step(s, e).connections
  {
    match e
    case PostDone(p, reply) => PostDoneKeeps(s, p, reply);
    case StreamOpen(h) => StreamOpenKeeps(s, h);
    case StreamMessage(h) => StreamMessageKeeps(s, h);
    case StreamError(h) => StreamErrorKeeps(s, h);
    case TimerFires(t) => TimerFiresKeeps(s, t);
    case _ =>
  }

  // ---- Connecting with nothing behind it ----

  /** `connecting` is set, but no session request is pending and no stream is held. */
  ghost predicate Abandoned(s: State, c: ServerConnection) {
    Current(s, c) && s.conns[c].connecting && s.conns[c].source.None? && NoPost(s, c)
  }

  predicate Reconnects(e: Event) {
    e.ConnectServer? || e.ConnectLocal?
  }

  lemma StillLive(s: State, e: Event, c: ServerConnection)
    requires Inv(s) && Enabled(s, e) && c in s.conns && Current(s, c) && e != DisconnectServer(s.conns[c].serverId)
    ensures s.conns[c].serverId in Step(s, e).connections
    ensures Step(s, e).connections[s.conns[c].serverId] == c
  {
    EventMoves(s, e);
  }

  lemma RejoinWhileConnecting(s: State, c: ServerConnection)
    requires Inv(s) && c in s.conns && Current(s, c) && s.conns[c].connecting
    ensures var r := Rejoin(s, s.conns[c].serverId);
            && r.posts == s.posts && c in r.conns
            && r.conns[c] == s.conns[c].(source := None)
  {
    var s1 := CloseSource(Put(s, c, s.conns[c].(allow := true)), c);
    assert ConnectRealtimeSse(s1, c) == s1;
  }

  lemma CallbackNeverAbandons(s: State, e: Event, c: ServerConnection)
    requires Inv(s) && Enabled(s, e) && c in s.conns && Current(s, c) && BelongsTo(s, e, c)
    requires s.conns[c].connecting && !Abandoned(s, c)
    ensures !Abandoned(Step(s, e), c)
  {
    match e
    case PostDone(p, reply) => PostNeverAbandons(s, p, reply);
    case StreamMessage(h) => MessageNeverAbandons(s, h);
    case _ =>
  }

  lemma PostNeverAbandons(s: State, p: Handle, reply: Reply)
    requires Inv(s) && p in s.posts && Current(s, s.posts[p]) && !Abandoned(s, s.posts[p])
    ensures !Abandoned(DoPostDone(s, p, reply), s.posts[p])
  {
  }

  lemma MessageNeverAbandons(s: State, h: Handle)
    requires Inv(s) && h in s.streams && !Abandoned(s, s.streams[h].conn)
    ensures !Abandoned(DoStreamMessage(s, h), s.streams[h].conn)
  {
    var c := s.streams[h].conn;
    if s.conns[c].source == Some(h) {
      var log := Log(s, s.conns[c].serverUrl);
      var n := UpTo(log, s.streams[h].after);
      if n < |log| {
        PayloadNeverAbandons(Received(s, h, log[n]), c, log[n].op);
      }
    }
  }

  lemma PayloadNeverAbandons(s: State, c: ServerConnection, op: Op)
    requires c in s.conns && s.conns[c].source.Some?
    ensures !Abandoned(HandlePayload(s, c, op), c)
  {
  }

  /** A connection that is connecting loses the work behind it exactly when it is asked to connect again while
      its stream is still opening. */
  lemma LosesItsWork(s: State, e: Event, c: ServerConnection)
    requires Inv(s) && Enabled(s, e) && Current(s, c) && s.conns[c].connecting && !Abandoned(s, c)
    ensures Abandoned(Step(s, e), c) <==> Concerns(s, e, c) && Reconnects(e) && s.conns[c].source.Some?
  {
    if !Concerns(s, e, c) {
      OthersLeave(s, e, c);
    } else if Reconnects(e) {
      RejoinWhileConnecting(s, c);
      StillLive(s, e, c);
    } else if e.DisconnectServer? {
    } else {
      CallbackNeverAbandons(s, e, c);
    }
  }

  /** From then on it stays that way until it is disconnected, and handles nothing more. */
  lemma StaysAbandoned(s: State, e: Event, c: ServerConnection)
    requires Inv(s) && Abandoned(s, c) && e != DisconnectServer(s.conns[c].serverId)
    ensures Abandoned(Step(s, e), c) && Step(s, e).conns[c] == s.conns[c]
  {
    if Enabled(s, e) {
      StillLive(s, e, c);
      if !Concerns(s, e, c) {
        OthersLeave(s, e, c);
      } else if Reconnects(e) {
        RejoinWhileConnecting(s, c);
      } else if e.StreamOpen? {
        assert s.streams[e.h := s.streams[e.h].(open := false)] == s.streams;
      }
    }
  }

  lemma {:induction false} StaysAbandonedInRun(s: State, events: seq<Event>, c: ServerConnection)
    requires Inv(s) && Abandoned(s, c) && DisconnectServer(s.conns[c].serverId) !in events
    ensures Abandoned(Run(s, events), c) && Run(s, events).conns[c] == s.conns[c]
    decreases |events|
  {
    if events != [] {
      var before := events[..|events| - 1];
      StaysAbandonedInRun(s, before, c);
      RunKeeps(s, before);
      StaysAbandoned(Run(s, before), events[|events| - 1], c);
    }
  }

  // ---- Witnesses ----

  lemma RunSnoc(s: State, events: seq<Event>, e: Event)
    ensures Run(s, events + [e]) == Step(Run(s, events), e)
  {
    assert (events + [e])[..|events|] == events;
  }

  /** Lines 413-416 abandon a connection whenever connectServer runs between the answer to its session request
      and the opening of its stream. */
  lemma ReconnectWhileOpening(s: State, p: Handle, c: ServerConnection, can: bool)
    requires Inv(s) && p in s.posts && s.posts[p] == c && Current(s, c) && s.conns[c].serverId !in s.inFlight
    ensures var s1 := Step(s, PostDone(p, SessionOk(None, Some(0))));
            Abandoned(Step(s1, ConnectServer(s.conns[c].serverId, can, None)), c)
  {
    var s1 := Step(s, PostDone(p, SessionOk(None, Some(0))));
    var e := ConnectServer(s.conns[c].serverId, can, None);
    StepKeeps(s, PostDone(p, SessionOk(None, Some(0))));
    OpeningHasStream(s, p, c);
    LosesItsWork(s1, e, c);
  }

  lemma OpeningHasStream(s: State, p: Handle, c: ServerConnection)
    requires Inv(s) && p in s.posts && s.posts[p] == c && Current(s, c)
    ensures var s1 := Step(s, PostDone(p, SessionOk(None, Some(0))));
            && s1.conns.Keys == s.conns.Keys && s1.inFlight == s.inFlight && Current(s1, c)
            && s1.conns[c].connecting && s1.conns[c].source.Some? && s1.conns[c].serverId == s.conns[c].serverId
  {
    assert s.conns[c].connecting && s.conns[c].source.None?;
  }

  lemma RunThree(s: State, a: Event, b: Event, d: Event)
    ensures Run(s, [a, b, d]) == Step(Step(Step(s, a), b), d)
  {
    assert [a, b, d] == [a, b] + [d] && [a, b] == [a] + [b] && [a] == [] + [a];
    RunSnoc(s, [], a);
    RunSnoc(s, [a], b);
    RunSnoc(s, [a, b], d);
  }

  /** Such a state exists. */
  lemma AbandonedIsReachable(c: ServerConnection)
    ensures exists events :: Abandoned(Run(Init, events), c)
  {
    var events := [SetServer("a", Server("http://a", true)), ConnectServer("a", false, Some(c)), TaskSettled("a")];
    RunThree(Init, events[0], events[1], events[2]);
    FirstConnect(c);
    EveryRunKeeps(events);
    AbandonedAfter(events, 0, c);
  }

  lemma AbandonedAfter(events: seq<Event>, p: Handle, c: ServerConnection)
    requires var s := Run(Init, events);
             p in s.posts && s.posts[p] == c && Current(s, c) && s.conns[c].serverId !in s.inFlight
    ensures exists more :: Abandoned(Run(Init, more), c)
  {
    var s := Run(Init, events);
    var answer := PostDone(p, SessionOk(None, Some(0)));
    var again := ConnectServer(s.conns[c].serverId, false, None);
    EveryRunKeeps(events);
    ReconnectWhileOpening(s, p, c, false);
    RunSnoc(Init, events, answer);
    RunSnoc(Init, events + [answer], again);
    assert Abandoned(Run(Init, events + [answer] + [again]), c);
  }

  lemma FirstConnect(c: ServerConnection)
    ensures var s := Step(Step(Step(Init, SetServer("a", Server("http://a", true))),
                               ConnectServer("a", false, Some(c))), TaskSettled("a"));
            && s.conns.Keys == {c} && Current(s, c) && s.conns[c].serverId == "a"
            && 0 in s.posts && s.posts[0] == c && "a" !in s.inFlight
  {
    var s1 := Step(Init, SetServer("a", Server("http://a", true)));
    assert s1.servers == map["a" := Server("http://a", true)];
    var s2 := Insert(s1, "a", "http://a", c);
    assert !Covered(CloseSource(s2, c), c);
    assert ConnectRealtime(s2, c) == StartSession(ClearTimer(CloseSource(s2, c), c), c);
  }
}
