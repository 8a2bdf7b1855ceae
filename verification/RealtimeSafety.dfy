/**
 What every run of the realtime protocol keeps: one unclosed stream per server URL, every stream, timer and
 session request accounted for, and connections that have been disconnected for good.
 */
module RealtimeSafety {
  import opened Options
  import opened RealtimeModel

  /** A disconnected connection holds nothing and wants nothing. */
  predicate Retired(v: Conn) {
    v.source.None? && v.timer.None? && !v.connecting && !v.connected && !v.allow
  }

  predicate SameServer(v: Conn, w: Conn) {
    Normalize(v.serverUrl) == Normalize(w.serverUrl)
  }

  ghost predicate MapOk(s: State) {
    && (forall id :: id in s.connections ==>
          s.connections[id] in s.conns && s.conns[s.connections[id]].serverId == id && s.conns[s.connections[id]].allow)
    && (forall c :: c in s.conns && !Current(s, c) ==> Retired(s.conns[c]))
    && (forall id :: id in s.inFlight && s.inFlight[id].Authenticating? ==> id !in s.connections)
  }

  ghost predicate PostsOk(s: State) {
    && (forall p :: p in s.posts ==>
          && p < s.next && s.posts[p] in s.conns
          && (Current(s, s.posts[p]) ==> s.conns[s.posts[p]].connecting && s.conns[s.posts[p]].source.None?))
    && (forall p, q :: p in s.posts && q in s.posts && p != q && s.posts[p] == s.posts[q] ==> !Current(s, s.posts[p]))
  }

  ghost predicate StreamsOk(s: State) {
    && (forall h :: h in s.streams ==>
          && h < s.next && s.streams[h].conn in s.conns
          && (s.streams[h].open ==> s.conns[s.streams[h].conn].source == Some(h)))
    && (forall c :: c in s.conns && s.conns[c].source.Some? ==>
          var h := s.conns[c].source.value;
          h in s.streams && s.streams[h].conn == c && s.streams[h].open)
  }

  ghost predicate TimersOk(s: State) {
    && (forall t :: t in s.timers ==>
          && t < s.next && s.timers[t].conn in s.conns && s.conns[s.timers[t].conn].timer == Some(t))
    && (forall c :: c in s.conns && s.conns[c].timer.Some? ==>
          var t := s.conns[c].timer.value;
          t in s.timers && s.timers[t].conn == c && !s.conns[c].connecting)
  }

  ghost predicate OneBusy(s: State) {
    forall c, d :: c in s.conns && d in s.conns && c != d && Busy(s.conns[c]) && Busy(s.conns[d]) ==>
      !SameServer(s.conns[c], s.conns[d])
  }

  ghost predicate Inv(s: State) {
    MapOk(s) && PostsOk(s) && StreamsOk(s) && TimersOk(s) && OneBusy(s)
  }

  // ---- A change that concerns one connection keeps it, given the part about that connection ----

  ghost predicate Local(s: State, r: State, c: ServerConnection) {
    && c in s.conns && r.conns.Keys == s.conns.Keys
    && (forall d :: d in s.conns && d != c ==> r.conns[d] == s.conns[d])
    && r.conns[c].serverId == s.conns[c].serverId && r.conns[c].serverUrl == s.conns[c].serverUrl
    && r.connections == s.connections && r.inFlight == s.inFlight && s.next <= r.next
  }

  ghost predicate NoPost(s: State, c: ServerConnection) {
    forall p :: p in s.posts ==> s.posts[p] != c
  }

  /** What a change about c owes: the clauses of the invariant that mention c. */
  ghost predicate OwesMap(s: State, r: State, c: ServerConnection)
    requires Local(s, r, c)
  {
    && (if Current(s, c) then r.conns[c].allow else Retired(r.conns[c]))
    && (Busy(r.conns[c]) ==> Busy(s.conns[c]) || !Covered(s, c))
  }

  ghost predicate OwesPosts(s: State, r: State, c: ServerConnection)
    requires Local(s, r, c)
  {
    && (r.posts == s.posts || (r.posts == s.posts[s.next := c] && NoPost(s, c) && s.next < r.next))
    && (NoPost(r, c) || !Current(s, c) || (r.conns[c].connecting && r.conns[c].source.None?))
  }

  ghost predicate OwesStreams(s: State, r: State, c: ServerConnection)
    requires Local(s, r, c)
  {
    || (r.streams == s.streams && r.conns[c].source == s.conns[c].source)
    || (r.streams == Closed(s.streams, s.conns[c].source) && r.conns[c].source.None?)
    || (&& s.conns[c].source.None? && r.conns[c].source == Some(s.next) && s.next < r.next
        && r.streams == s.streams[s.next := Stream(c, true, StreamStart(s, c))])
    || (&& r.conns[c].source == s.conns[c].source && r.conns[c].source.Some?
        && var h := r.conns[c].source.value;
           && h in s.streams && h in r.streams
           && r.streams == s.streams[h := s.streams[h].(after := r.streams[h].after)])
  }

  ghost predicate OwesTimers(s: State, r: State, c: ServerConnection)
    requires Local(s, r, c)
  {
    && (r.conns[c].timer.Some? ==> !r.conns[c].connecting)
    && (|| (r.timers == s.timers && r.conns[c].timer == s.conns[c].timer)
        || (r.conns[c].timer.None? && s.conns[c].timer.Some? && r.timers == s.timers - {s.conns[c].timer.value})
        || (&& r.conns[c].timer == Some(s.next) && s.next < r.next && s.conns[c].timer.None?
            && r.timers == s.timers[s.next := Timer(c, Backoff(s.conns[c].attempts))]))
  }

  lemma LocalMap(s: State, r: State, c: ServerConnection)
    requires MapOk(s) && OneBusy(s) && Local(s, r, c) && OwesMap(s, r, c)
    ensures MapOk(r) && OneBusy(r)
  {
    assert forall d :: d in s.conns ==> (Current(r, d) <==> Current(s, d));
    if Busy(r.conns[c]) && !Busy(s.conns[c]) {
      forall d | d in s.conns && d != c && Busy(s.conns[d])
        ensures !SameServer(s.conns[c], s.conns[d])
      {
        assert Current(s, d);
      }
    }
  }

  lemma LocalPosts(s: State, r: State, c: ServerConnection)
    requires PostsOk(s) && Local(s, r, c) && OwesPosts(s, r, c)
    ensures PostsOk(r)
  {
    assert forall d :: d in s.conns ==> (Current(r, d) <==> Current(s, d));
  }

  lemma LocalStreams(s: State, r: State, c: ServerConnection)
    requires StreamsOk(s) && Local(s, r, c) && OwesStreams(s, r, c)
    ensures StreamsOk(r)
  {
    forall h | h in r.streams
      ensures h < r.next && r.streams[h].conn in r.conns
      ensures r.streams[h].open ==> r.conns[r.streams[h].conn].source == Some(h)
    {
    }
    forall d | d in r.conns && r.conns[d].source.Some?
      ensures var h := r.conns[d].source.value;
              h in r.streams && r.streams[h].conn == d && r.streams[h].open
    {
      if d != c {
        var h := s.conns[d].source.value;
        assert h in s.streams && s.streams[h].conn == d;
      }
    }
  }

  lemma LocalTimers(s: State, r: State, c: ServerConnection)
    requires TimersOk(s) && Local(s, r, c) && OwesTimers(s, r, c)
    ensures TimersOk(r)
  {
    forall t | t in r.timers
      ensures t < r.next && r.timers[t].conn in r.conns && r.conns[r.timers[t].conn].timer == Some(t)
    {
    }
    forall d | d in r.conns && r.conns[d].timer.Some?
      ensures var t := r.conns[d].timer.value;
              t in r.timers && r.timers[t].conn == d && !r.conns[d].connecting
    {
      if d != c {
        var t := r.conns[d].timer.value;
        assert t in s.timers && s.timers[t].conn == d;
      }
    }
  }

  ghost predicate Owes(s: State, r: State, c: ServerConnection) {
    Local(s, r, c) && OwesMap(s, r, c) && OwesPosts(s, r, c) && OwesStreams(s, r, c) && OwesTimers(s, r, c)
  }

  lemma LocalKeeps(s: State, r: State, c: ServerConnection)
    requires Inv(s) && Owes(s, r, c)
    ensures Inv(r)
  {
    LocalMap(s, r, c);
    LocalPosts(s, r, c);
    LocalStreams(s, r, c);
    LocalTimers(s, r, c);
  }

  // ---- Each building block keeps it ----

  lemma CloseSourceKeeps(s: State, c: ServerConnection)
    requires Inv(s) && c in s.conns
    ensures Inv(CloseSource(s, c)) && Local(s, CloseSource(s, c), c)
  {
    LocalKeeps(s, CloseSource(s, c), c);
  }

  lemma ClearTimerKeeps(s: State, c: ServerConnection)
    requires Inv(s) && c in s.conns
    ensures Inv(ClearTimer(s, c)) && Local(s, ClearTimer(s, c), c)
  {
    LocalKeeps(s, ClearTimer(s, c), c);
  }

  lemma ConnectRealtimeSseKeeps(s: State, c: ServerConnection)
    requires Inv(s) && c in s.conns
    ensures Inv(ConnectRealtimeSse(s, c)) && Local(s, ConnectRealtimeSse(s, c), c)
  {
    if Current(s, c) && !Busy(s.conns[c]) && HasToken(s, s.conns[c].serverId) {
      assert NoPost(s, c);
      if Covered(s, c) {
        PutKeeps(s, c, s.conns[c].(connected := true, connecting := false));
      } else {
        ClearTimerKeeps(s, c);
        StartSessionKeeps(ClearTimer(s, c), c);
      }
    }
  }

  lemma StartSessionKeeps(s: State, c: ServerConnection)
    requires Inv(s) && Current(s, c) && !Busy(s.conns[c]) && s.conns[c].timer.None? && !Covered(s, c) && NoPost(s, c)
    ensures Inv(StartSession(s, c)) && Local(s, StartSession(s, c), c)
  {
    LocalKeeps(s, StartSession(s, c), c);
  }

  lemma StartRetryKeeps(s: State, c: ServerConnection)
    requires Inv(s) && Current(s, c) && !s.conns[c].connecting && s.conns[c].timer.None?
    ensures Inv(StartRetry(s, c)) && Local(s, StartRetry(s, c), c)
  {
    var r := StartRetry(s, c);
    assert Local(s, r, c);
    assert OwesMap(s, r, c);
    assert OwesPosts(s, r, c);
    LocalKeeps(s, r, c);
  }

  lemma ReconnectGatewayKeeps(s: State, c: ServerConnection)
    requires Inv(s) && c in s.conns && !s.conns[c].connecting
    ensures Inv(ReconnectGateway(s, c)) && Local(s, ReconnectGateway(s, c), c)
  {
    if s.conns[c].allow && s.conns[c].timer.None? && Current(s, c) && !s.offline {
      StartRetryKeeps(s, c);
    }
  }

  lemma OpenStreamKeeps(s: State, c: ServerConnection)
    requires Inv(s) && Current(s, c) && s.conns[c].connecting && s.conns[c].source.None? && NoPost(s, c)
    ensures Inv(OpenStream(s, c)) && Local(s, OpenStream(s, c), c)
  {
    LocalKeeps(s, OpenStream(s, c), c);
  }

  /** Changing only fields the invariant does not mention. */
  lemma PutKeeps(s: State, c: ServerConnection, v: Conn)
    requires Inv(s) && c in s.conns
    requires v.serverId == s.conns[c].serverId && v.serverUrl == s.conns[c].serverUrl
    requires v.source == s.conns[c].source && v.timer == s.conns[c].timer
    requires v.connecting ==> s.conns[c].connecting
    requires if Current(s, c) then v.allow else Retired(v)
    requires NoPost(s, c) || (v.connecting && v.source.None?)
    ensures Inv(Put(s, c, v)) && Local(s, Put(s, c, v), c)
  {
    LocalKeeps(s, Put(s, c, v), c);
  }

  lemma ConnectRealtimeKeeps(s: State, c: ServerConnection)
    requires Inv(s) && c in s.conns
    ensures Inv(ConnectRealtime(s, c)) && Local(s, ConnectRealtime(s, c), c)
  {
    CloseSourceKeeps(s, c);
    ConnectRealtimeSseKeeps(CloseSource(s, c), c);
  }

  lemma DropAndRetryKeeps(s: State, c: ServerConnection)
    requires Inv(s) && Current(s, c) && NoPost(s, c)
    ensures Inv(DropAndRetry(s, c)) && Local(s, DropAndRetry(s, c), c)
  {
    CloseSourceKeeps(s, c);
    var s1 := CloseSource(s, c);
    var v := s1.conns[c].(connected := false, connecting := false);
    PutKeeps(s1, c, v);
    ReconnectGatewayKeeps(Put(s1, c, v), c);
  }

  lemma HandlePayloadKeeps(s: State, c: ServerConnection, op: Op)
    requires Inv(s) && Current(s, c) && NoPost(s, c)
    ensures Inv(HandlePayload(s, c, op)) && Local(s, HandlePayload(s, c, op), c)
  {
    match op
    case Ready(session) => PutKeeps(s, c, s.conns[c].(session := session, attempts := 0));
    case Dispatch(_) =>
    case HeartbeatAck =>
    case Reconnect => DropAndRetryKeeps(s, c);
    case InvalidSession =>
      PutKeeps(s, c, s.conns[c].(session := None));
      DropAndRetryKeeps(Put(s, c, s.conns[c].(session := None)), c);
  }

  lemma InsertCurrent(s: State, id: string, url: string, made: ServerConnection)
    requires made !in s.conns && id !in s.connections
    ensures forall c :: c in s.conns ==> (Current(Insert(s, id, url, made), c) <==> Current(s, c))
    ensures Current(Insert(s, id, url, made), made)
  {
    var r := Insert(s, id, url, made);
    forall c | c in s.conns
      ensures Current(r, c) <==> Current(s, c)
    {
      if s.conns[c].serverId == id {
        assert r.connections[id] != c;
      }
    }
  }

  lemma InsertMap(s: State, id: string, url: string, made: ServerConnection)
    requires MapOk(s) && made !in s.conns && id !in s.connections
    requires id in s.inFlight ==> s.inFlight[id].Settled?
    ensures MapOk(Insert(s, id, url, made))
  {
    InsertCurrent(s, id, url, made);
    var r := Insert(s, id, url, made);
    assert forall c :: c in s.conns ==> r.conns[c] == s.conns[c];
  }

  lemma InsertPosts(s: State, id: string, url: string, made: ServerConnection)
    requires PostsOk(s) && OneBusy(s) && made !in s.conns && id !in s.connections
    ensures PostsOk(Insert(s, id, url, made)) && OneBusy(Insert(s, id, url, made))
  {
    InsertCurrent(s, id, url, made);
  }

  /** A new record with nothing attached goes into the map. */
  lemma InsertKeeps(s: State, id: string, url: string, made: ServerConnection)
    requires Inv(s) && made !in s.conns && id !in s.connections
    requires id in s.inFlight ==> s.inFlight[id].Settled?
    ensures Inv(Insert(s, id, url, made))
  {
    InsertMap(s, id, url, made);
    InsertPosts(s, id, url, made);
  }

  lemma CreateConnectionKeeps(s: State, id: string, url: string, made: ServerConnection)
    requires Inv(s) && made !in s.conns && id !in s.connections
    requires id in s.inFlight ==> s.inFlight[id].Settled?
    ensures Inv(CreateConnection(s, id, url, made))
  {
    InsertKeeps(s, id, url, made);
    ConnectRealtimeKeeps(Insert(s, id, url, made), made);
  }

  // ---- Each event keeps it ----

  lemma RejoinKeeps(s: State, id: string)
    requires Inv(s) && id in s.connections
    ensures Inv(Rejoin(s, id)) && Local(s, Rejoin(s, id), s.connections[id])
  {
    var c := s.connections[id];
    PutKeeps(s, c, s.conns[c].(allow := true));
    ConnectRealtimeKeeps(Put(s, c, s.conns[c].(allow := true)), c);
  }

  /** Finishing or forgetting a task, and any change outside the manager's own records. */
  lemma OutsideKeeps(s: State, r: State)
    requires Inv(s)
    requires r == s.(inFlight := r.inFlight, offline := r.offline, servers := r.servers,
                     localToken := r.localToken, logs := r.logs)
    requires forall id :: id in r.inFlight && r.inFlight[id].Authenticating? ==> id !in s.connections
    ensures Inv(r)
  {
    assert forall c :: c in s.conns ==> (Current(r, c) <==> Current(s, c));
  }

  lemma CreateKeepsTasks(s: State, id: string, url: string, made: ServerConnection)
    requires Inv(s) && made !in s.conns && id !in s.connections
    requires id in s.inFlight ==> s.inFlight[id].Settled?
    ensures CreateConnection(s, id, url, made).inFlight == s.inFlight
    ensures CreateConnection(s, id, url, made).connections == s.connections[id := made]
  {
    InsertKeeps(s, id, url, made);
    ConnectRealtimeKeeps(Insert(s, id, url, made), made);
  }

  lemma CreateAndSettleKeeps(s: State, id: string, url: string, made: ServerConnection)
    requires Inv(s) && made !in s.conns && id !in s.connections && id !in s.inFlight
    ensures var s1 := CreateConnection(s, id, url, made); Inv(s1.(inFlight := s1.inFlight[id := Settled]))
  {
    CreateConnectionKeeps(s, id, url, made);
    CreateKeepsTasks(s, id, url, made);
    var s1 := CreateConnection(s, id, url, made);
    OutsideKeeps(s1, s1.(inFlight := s1.inFlight[id := Settled]));
  }

  lemma RejoinAndSettleKeeps(s: State, id: string)
    requires Inv(s) && id in s.connections && id !in s.inFlight
    ensures var s1 := Rejoin(s, id); Inv(s1.(inFlight := s1.inFlight[id := Settled]))
  {
    RejoinKeeps(s, id);
    var s1 := Rejoin(s, id);
    OutsideKeeps(s1, s1.(inFlight := s1.inFlight[id := Settled]));
  }

  lemma ConnectServerKeeps(s: State, id: string, can: bool, made: Option<ServerConnection>)
    requires Inv(s) && New(s, made)
    ensures Inv(DoConnectServer(s, id, can, made))
  {
    if id in s.inFlight {
    } else if id in s.connections {
      RejoinAndSettleKeeps(s, id);
    } else if id !in s.servers || !s.servers[id].token {
      OutsideKeeps(s, DoConnectServer(s, id, can, made));
    } else if made.Some? {
      CreateAndSettleKeeps(s, id, s.servers[id].url, made.value);
    }
  }

  lemma AuthDoneKeeps(s: State, id: string, ok: bool, made: Option<ServerConnection>)
    requires Inv(s) && id in s.inFlight && s.inFlight[id].Authenticating? && New(s, made)
    ensures Inv(DoAuthDone(s, id, ok, made))
  {
    var s0 := s.(inFlight := s.inFlight[id := Settled]);
    OutsideKeeps(s, s0);
    if ok && made.Some? {
      var servers := if id in s.servers then s.servers[id := s.servers[id].(token := true)] else s.servers;
      var s1 := s0.(localToken := true, servers := servers);
      OutsideKeeps(s0, s1);
      CreateConnectionKeeps(s1, id, s.inFlight[id].url, made.value);
    }
  }

  lemma ConnectLocalKeeps(s: State, url: string, made: Option<ServerConnection>)
    requires Inv(s) && New(s, made)
    ensures Inv(DoConnectLocal(s, url, made))
  {
    var id := LOCAL_SERVER_ID;
    if id in s.inFlight {
    } else if !s.localToken || (id !in s.connections && made.None?) {
      OutsideKeeps(s, DoConnectLocal(s, url, made));
    } else if id in s.connections {
      RejoinAndSettleKeeps(s, id);
    } else {
      CreateAndSettleKeeps(s, id, url, made.value);
    }
  }

  lemma ForgetPostKeeps(s: State, p: Handle)
    requires Inv(s) && p in s.posts
    ensures Inv(s.(posts := s.posts - {p}))
    ensures var c := s.posts[p];
            Current(s, c) ==>
              NoPost(s.(posts := s.posts - {p}), c) && s.conns[c].connecting && s.conns[c].source.None?
  {
    var r := s.(posts := s.posts - {p});
    assert forall c :: c in s.conns ==> (Current(r, c) <==> Current(s, c));
  }

  lemma AdoptKeeps(s: State, c: ServerConnection, session: Option<string>, cursor: Option<nat>)
    requires Inv(s) && Current(s, c) && s.conns[c].connecting && s.conns[c].source.None? && NoPost(s, c)
    ensures var r := OpenStream(Put(s, c, AdoptSession(s.conns[c], session, cursor)), c); Inv(r) && Local(s, r, c)
  {
    var v := AdoptSession(s.conns[c], session, cursor);
    PutKeeps(s, c, v);
    OpenStreamKeeps(Put(s, c, v), c);
  }

  lemma SessionLostKeeps(s: State, c: ServerConnection)
    requires Inv(s) && Current(s, c) && NoPost(s, c)
    ensures Inv(SessionLost(s, c)) && Local(s, SessionLost(s, c), c)
  {
    var v := s.conns[c].(connecting := false, connected := false);
    PutKeeps(s, c, v);
    ReconnectGatewayKeeps(Put(s, c, v), c);
  }

  lemma OpenFailedKeeps(s: State, c: ServerConnection, session: Option<string>, cursor: Option<nat>)
    requires Inv(s) && Current(s, c) && NoPost(s, c)
    ensures var r := SessionLost(Put(s, c, AdoptSession(s.conns[c], session, cursor)), c); Inv(r) && Local(s, r, c)
  {
    var v := AdoptSession(s.conns[c], session, cursor);
    PutKeeps(s, c, v);
    SessionLostKeeps(Put(s, c, v), c);
  }

  lemma PostDoneKeeps(s: State, p: Handle, reply: Reply)
    requires Inv(s) && p in s.posts
    ensures Inv(DoPostDone(s, p, reply)) && Local(s, DoPostDone(s, p, reply), s.posts[p])
  {
    var c := s.posts[p];
    var s0 := s.(posts := s.posts - {p});
    ForgetPostKeeps(s, p);
    assert Local(s, s0, c);
    if Current(s0, c) {
      match reply
      case SessionOk(session, cursor) => AdoptKeeps(s0, c, session, cursor);
      case OpenFailed(session, cursor) => OpenFailedKeeps(s0, c, session, cursor);
      case SessionFailed => SessionLostKeeps(s0, c);
    }
  }

  /** The stream a connection holds has no session request behind it any more. */
  lemma HeldStreamNoPost(s: State, h: Handle)
    requires Inv(s) && h in s.streams && s.conns[s.streams[h].conn].source == Some(h)
    ensures Current(s, s.streams[h].conn) && NoPost(s, s.streams[h].conn)
  {
    assert !Retired(s.conns[s.streams[h].conn]);
  }

  lemma StreamOpenKeeps(s: State, h: Handle)
    requires Inv(s) && h in s.streams
    ensures Inv(DoStreamOpen(s, h)) && Local(s, DoStreamOpen(s, h), s.streams[h].conn)
  {
    var c := s.streams[h].conn;
    if s.conns[c].source == Some(h) {
      HeldStreamNoPost(s, h);
      PutKeeps(s, c, s.conns[c].(connecting := false, connected := true, attempts := 0));
    } else {
      // A stream its connection no longer holds is closed already.
      assert s.streams[h := s.streams[h].(open := false)] == s.streams;
    }
  }

  lemma ReceivedKeeps(s: State, h: Handle, entry: Entry)
    requires Inv(s) && h in s.streams && s.conns[s.streams[h].conn].source == Some(h)
    ensures Inv(Received(s, h, entry)) && Local(s, Received(s, h, entry), s.streams[h].conn)
    ensures Current(Received(s, h, entry), s.streams[h].conn) && NoPost(Received(s, h, entry), s.streams[h].conn)
  {
    HeldStreamNoPost(s, h);
    LocalKeeps(s, Received(s, h, entry), s.streams[h].conn);
  }

  lemma StreamMessageKeeps(s: State, h: Handle)
    requires Inv(s) && h in s.streams
    ensures Inv(DoStreamMessage(s, h)) && Local(s, DoStreamMessage(s, h), s.streams[h].conn)
  {
    var c := s.streams[h].conn;
    if s.conns[c].source == Some(h) {
      var log := Log(s, s.conns[c].serverUrl);
      var n := UpTo(log, s.streams[h].after);
      if n < |log| {
        HandledKeeps(s, h, log[n]);
      }
    }
  }

  lemma HandledKeeps(s: State, h: Handle, entry: Entry)
    requires Inv(s) && h in s.streams && s.conns[s.streams[h].conn].source == Some(h)
    ensures var c := s.streams[h].conn;
            var r := HandlePayload(Received(s, h, entry), c, entry.op);
            Inv(r) && Local(s, r, c)
  {
    ReceivedKeeps(s, h, entry);
    HandlePayloadKeeps(Received(s, h, entry), s.streams[h].conn, entry.op);
  }

  lemma StreamErrorKeeps(s: State, h: Handle)
    requires Inv(s) && h in s.streams
    ensures Inv(DoStreamError(s, h)) && Local(s, DoStreamError(s, h), s.streams[h].conn)
  {
    if s.conns[s.streams[h].conn].source == Some(h) {
      HeldStreamNoPost(s, h);
      DropAndRetryKeeps(s, s.streams[h].conn);
    }
  }

  lemma TimerFiresKeeps(s: State, t: Handle)
    requires Inv(s) && t in s.timers
    ensures Inv(DoTimerFires(s, t)) && Local(s, DoTimerFires(s, t), s.timers[t].conn)
  {
    var c := s.timers[t].conn;
    ClearTimerKeeps(s, c);
    ConnectRealtimeKeeps(ClearTimer(s, c), c);
  }

  lemma DisconnectKeeps(s: State, id: string)
    requires Inv(s)
    ensures Inv(DoDisconnect(s, id))
  {
    if id in s.connections {
      var c := s.connections[id];
      ClearTimerKeeps(s, c);
      CloseSourceKeeps(ClearTimer(s, c), c);
      RetireKeeps(CloseSource(ClearTimer(s, c), c), id);
    }
  }

  function Retire(s: State, id: string): (r: State)
    requires id in s.connections && s.connections[id] in s.conns
    ensures r.conns.Keys == s.conns.Keys
  {
    var c := s.connections[id];
    Put(s, c, s.conns[c].(allow := false, connecting := false, connected := false))
    .(connections := s.connections - {id})
  }

  lemma RetireMap(s: State, id: string)
    requires MapOk(s) && OneBusy(s) && id in s.connections
    requires s.conns[s.connections[id]].source.None? && s.conns[s.connections[id]].timer.None?
    ensures MapOk(Retire(s, id)) && OneBusy(Retire(s, id))
    ensures forall d :: d in s.conns ==> (Current(Retire(s, id), d) <==> Current(s, d) && d != s.connections[id])
  {
    var r := Retire(s, id);
    assert forall d :: d in s.conns ==> (Current(r, d) <==> Current(s, d) && d != s.connections[id]);
  }

  lemma RetireKeeps(s: State, id: string)
    requires Inv(s) && id in s.connections
    requires s.conns[s.connections[id]].source.None? && s.conns[s.connections[id]].timer.None?
    ensures Inv(Retire(s, id))
  {
    RetireMap(s, id);
    RetirePosts(s, id);
  }

  lemma RetirePosts(s: State, id: string)
    requires PostsOk(s) && id in s.connections && s.connections[id] in s.conns
    requires forall d :: d in s.conns ==> (Current(Retire(s, id), d) <==> Current(s, d) && d != s.connections[id])
    ensures PostsOk(Retire(s, id))
  {
  }

  lemma StepKeeps(s: State, e: Event)
    requires Inv(s)
    ensures Inv(Step(s, e))
  {
    if Enabled(s, e) {
      match e
      case ConnectServer(id, can, made) => ConnectServerKeeps(s, id, can, made);
      case AuthDone(id, ok, made) => AuthDoneKeeps(s, id, ok, made);
      case ConnectLocal(url, made) => ConnectLocalKeeps(s, url, made);
      case PostDone(p, reply) => PostDoneKeeps(s, p, reply);
      case StreamOpen(h) => StreamOpenKeeps(s, h);
      case StreamMessage(h) => StreamMessageKeeps(s, h);
      case StreamError(h) => StreamErrorKeeps(s, h);
      case TimerFires(t) => TimerFiresKeeps(s, t);
      case DisconnectServer(id) => DisconnectKeeps(s, id);
      case _ => WorldKeeps(s, e);
    }
  }

  lemma WorldKeeps(s: State, e: Event)
    requires Inv(s)
    requires e.TaskSettled? || e.GoOffline? || e.GoOnline? || e.SetServer? || e.RemoveServer?
             || e.SetLocalToken? || e.ServerEmits?
    ensures Inv(Step(s, e))
  {
    OutsideKeeps(s, Step(s, e));
  }

  // ---- Every run ----

  lemma {:induction false} RunKeeps(s: State, events: seq<Event>)
    requires Inv(s)
    ensures Inv(Run(s, events))
    decreases |events|
  {
    if events != [] {
      RunKeeps(s, events[..|events| - 1]);
      StepKeeps(Run(s, events[..|events| - 1]), events[|events| - 1]);
    }
  }

  /** The invariant holds after every run, whatever the interleaving. */
  lemma EveryRunKeeps(events: seq<Event>)
    ensures Inv(Run(Init, events))
  {
    RunKeeps(Init, events);
  }

  /** At most one EventSource per server URL is unclosed, and it is the one its live connection holds. */
  lemma OneStreamPerServer(events: seq<Event>, g: Handle, h: Handle)
    requires var s := Run(Init, events); g in s.streams && h in s.streams && s.streams[g].open && s.streams[h].open
    ensures var s := Run(Init, events);
            && s.streams[g].conn in s.conns && s.streams[h].conn in s.conns
            && Current(s, s.streams[g].conn) && s.conns[s.streams[g].conn].source == Some(g)
            && (g != h ==> !SameServer(s.conns[s.streams[g].conn], s.conns[s.streams[h].conn]))
  {
    EveryRunKeeps(events);
    HeldStreamNoPost(Run(Init, events), g);
  }

  /** No two live connections to one URL are both connecting or streaming. */
  lemma OneBusyPerServer(events: seq<Event>, a: string, b: string)
    requires var s := Run(Init, events); a in s.connections && b in s.connections && a != b
    ensures var s := Run(Init, events);
            && s.connections[a] in s.conns && s.connections[b] in s.conns
            && (SameServer(s.conns[s.connections[a]], s.conns[s.connections[b]]) ==>
                  !Busy(s.conns[s.connections[a]]) || !Busy(s.conns[s.connections[b]]))
  {
    EveryRunKeeps(events);
  }

  // ---- Stale callbacks ----

  /** The event is a continuation or callback that belongs to c. */
  predicate BelongsTo(s: State, e: Event, c: ServerConnection) {
    match e
    case PostDone(p, _) => p in s.posts && s.posts[p] == c
    case StreamOpen(h) => h in s.streams && s.streams[h].conn == c
    case StreamMessage(h) => h in s.streams && s.streams[h].conn == c
    case StreamError(h) => h in s.streams && s.streams[h].conn == c
    case TimerFires(t) => t in s.timers && s.timers[t].conn == c
    case _ => false
  }

  lemma StaleIsInert(s: State, e: Event, c: ServerConnection)
    requires Inv(s) && c in s.conns && !Current(s, c) && BelongsTo(s, e, c)
    ensures !e.TimerFires? && Step(s, e) == if e.PostDone? then s.(posts := s.posts - {e.post}) else s
  {
    assert Retired(s.conns[c]);
    if e.StreamOpen? {
      assert s.streams[e.h := s.streams[e.h].(open := false)] == s.streams;
    }
  }

  /** After disconnectServer a connection has no timer left, and its pending request and stream callbacks
      do nothing at all: they only stop being pending. */
  lemma StaleCallbacksAreInert(events: seq<Event>, e: Event, c: ServerConnection)
    requires var s := Run(Init, events); c in s.conns && !Current(s, c) && BelongsTo(s, e, c)
    ensures var s := Run(Init, events);
            !e.TimerFires? && Step(s, e) == if e.PostDone? then s.(posts := s.posts - {e.post}) else s
  {
    EveryRunKeeps(events);
    StaleIsInert(Run(Init, events), e, c);
  }

  type Records = map<ServerConnection, Conn>
  type Live = map<string, ServerConnection>

  predicate IsLive(m: Live, conns: Records, c: ServerConnection) {
    c in conns && conns[c].serverId in m && m[conns[c].serverId] == c
  }

  /** What an event does to the map, and to connections that are not in it. */
  ghost predicate MapMoves(m: Live, conns: Records, m': Live, conns': Records, dropped: set<string>) {
    && (forall id :: id in m && id !in dropped ==> id in m' && m'[id] == m[id])
    && (forall id :: id in m' && id !in m ==> m'[id] !in conns)
    && (forall id :: id in m' && id in m ==> m'[id] == m[id])
    && (forall c :: c in conns && !IsLive(m, conns, c) ==> c in conns' && conns'[c] == conns[c])
  }

  ghost predicate Moves(s: State, r: State, dropped: set<string>) {
    MapMoves(s.connections, s.conns, r.connections, r.conns, dropped)
  }

  lemma LocalMoves(s: State, r: State, c: ServerConnection)
    requires Local(s, r, c) && Current(s, c)
    ensures Moves(s, r, {})
  {
  }

  lemma StillMoves(s: State, r: State)
    requires r.conns == s.conns && r.connections == s.connections
    ensures Moves(s, r, {})
  {
  }

  lemma RejoinMoves(s: State, id: string)
    requires Inv(s) && id in s.connections
    ensures Moves(s, Rejoin(s, id), {})
  {
    RejoinKeeps(s, id);
    LocalMoves(s, Rejoin(s, id), s.connections[id]);
  }

  lemma CreateMoves(s: State, id: string, url: string, made: ServerConnection)
    requires Inv(s) && made !in s.conns && id !in s.connections
    requires id in s.inFlight ==> s.inFlight[id].Settled?
    ensures Moves(s, CreateConnection(s, id, url, made), {})
  {
    InsertKeeps(s, id, url, made);
    ConnectRealtimeKeeps(Insert(s, id, url, made), made);
  }

  lemma ConnectServerMoves(s: State, id: string, can: bool, made: Option<ServerConnection>)
    requires Inv(s) && New(s, made)
    ensures Moves(s, DoConnectServer(s, id, can, made), {})
  {
    if id in s.inFlight {
      StillMoves(s, s);
    } else if id in s.connections {
      RejoinMoves(s, id);
    } else if id in s.servers && s.servers[id].token {
      if made.Some? { CreateMoves(s, id, s.servers[id].url, made.value); } else { StillMoves(s, s); }
    } else {
      UnstartedMoves(s, id, if id in s.servers && can then Authenticating(s.servers[id].url) else Settled);
    }
  }

  lemma UnstartedMoves(s: State, id: string, task: Task)
    ensures Moves(s, s.(inFlight := s.inFlight[id := task]), {})
  {
    StillMoves(s, s.(inFlight := s.inFlight[id := task]));
  }

  lemma AuthDoneMoves(s: State, id: string, ok: bool, made: Option<ServerConnection>)
    requires Inv(s) && id in s.inFlight && s.inFlight[id].Authenticating? && New(s, made)
    ensures Moves(s, DoAuthDone(s, id, ok, made), {})
  {
    if ok && made.Some? {
      var servers := if id in s.servers then s.servers[id := s.servers[id].(token := true)] else s.servers;
      var s1 := s.(inFlight := s.inFlight[id := Settled]).(localToken := true, servers := servers);
      OutsideKeeps(s, s1);
      CreateMoves(s1, id, s.inFlight[id].url, made.value);
    }
  }

  lemma ConnectLocalMoves(s: State, url: string, made: Option<ServerConnection>)
    requires Inv(s) && New(s, made)
    ensures Moves(s, DoConnectLocal(s, url, made), {})
  {
    var id := LOCAL_SERVER_ID;
    if id in s.inFlight || !s.localToken || (id !in s.connections && made.None?) {
    } else if id in s.connections {
      RejoinMoves(s, id);
    } else {
      CreateMoves(s, id, url, made.value);
    }
  }

  lemma CallbackMoves(s: State, e: Event, c: ServerConnection)
    requires Inv(s) && Enabled(s, e) && BelongsTo(s, e, c)
    ensures Moves(s, Step(s, e), {})
  {
    if Current(s, c) {
      match e
      case PostDone(p, reply) => PostDoneKeeps(s, p, reply);
      case StreamOpen(h) => StreamOpenKeeps(s, h);
      case StreamMessage(h) => StreamMessageKeeps(s, h);
      case StreamError(h) => StreamErrorKeeps(s, h);
      case TimerFires(t) => TimerFiresKeeps(s, t);
      LocalMoves(s, Step(s, e), c);
    } else {
      StaleIsInert(s, e, c);
    }
  }

  lemma DisconnectMoves(s: State, id: string)
    requires Inv(s)
    ensures Moves(s, DoDisconnect(s, id), {id})
  {
    var r := DoDisconnect(s, id);
    if id in s.connections {
      OneLess(s.connections, s.conns, r.conns, id);
    } else {
      StillMoves(s, r);
    }
  }

  /** One entry leaves the map, and only its own record changes. */
  lemma OneLess(m: Live, conns: Records, conns': Records, id: string)
    requires id in m && m[id] in conns && conns[m[id]].serverId == id && conns'.Keys == conns.Keys
    requires forall c :: c in conns && c != m[id] ==> conns'[c] == conns[c]
    ensures MapMoves(m, conns, m - {id}, conns', {id})
  {
    assert IsLive(m, conns, m[id]);
  }

  lemma EventMoves(s: State, e: Event)
    requires Inv(s) && Enabled(s, e)
    ensures Moves(s, Step(s, e), if e.DisconnectServer? then {e.id} else {})
  {
    match e
    case ConnectServer(id, can, made) => ConnectServerMoves(s, id, can, made);
    case AuthDone(id, ok, made) => AuthDoneMoves(s, id, ok, made);
    case ConnectLocal(url, made) => ConnectLocalMoves(s, url, made);
    case DisconnectServer(id) => DisconnectMoves(s, id);
    case _ => LesserMoves(s, e);
  }

  lemma LesserMoves(s: State, e: Event)
    requires Inv(s) && Enabled(s, e)
    requires !e.ConnectServer? && !e.AuthDone? && !e.ConnectLocal? && !e.DisconnectServer?
    ensures Moves(s, Step(s, e), {})
  {
    match e
    case PostDone(p, _) => CallbackMoves(s, e, s.posts[p]);
    case StreamOpen(h) => CallbackMoves(s, e, s.streams[h].conn);
    case StreamMessage(h) => CallbackMoves(s, e, s.streams[h].conn);
    case StreamError(h) => CallbackMoves(s, e, s.streams[h].conn);
    case TimerFires(t) => CallbackMoves(s, e, s.timers[t].conn);
    case _ =>
  }

  /** connections.set never replaces a live entry: an id leaves the map only through disconnectServer, and
      no other event changes the object it stands for. */
  lemma NeverOverwritten(s: State, e: Event, id: string)
    requires Inv(s) && id in s.connections && e != DisconnectServer(id)
    ensures id in Step(s, e).connections && Step(s, e).connections[id] == s.connections[id]
  {
    if Enabled(s, e) {
      EventMoves(s, e);
    }
  }

  /** A connection that was taken out of the map is never put back, and none of its fields, its record of
      handled payloads included, ever changes again. */
  lemma RetiredForGood(s: State, e: Event, c: ServerConnection)
    requires Inv(s) && c in s.conns && !Current(s, c)
    ensures c in Step(s, e).conns && Step(s, e).conns[c] == s.conns[c] && !Current(Step(s, e), c)
  {
    if Enabled(s, e) {
      EventMoves(s, e);
    }
    assert Current(s, c) <==> IsLive(s.connections, s.conns, c);
  }

  lemma {:induction false} RetiredForGoodInRun(s: State, events: seq<Event>, c: ServerConnection)
    requires Inv(s) && c in s.conns && !Current(s, c)
    ensures c in Run(s, events).conns && Run(s, events).conns[c] == s.conns[c] && !Current(Run(s, events), c)
    decreases |events|
  {
    if events != [] {
      var before := events[..|events| - 1];
      RetiredForGoodInRun(s, before, c);
      RunKeeps(s, before);
      RetiredForGood(Run(s, before), events[|events| - 1], c);
    }
  }
}
