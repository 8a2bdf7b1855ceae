/**
 Resume: whatever happens to a connection's streams, what it hands to handlePayload is a part of the server's log that
 ends at the cursor it has now.  RealtimeHistory says where it begins.
 */
module RealtimeResume {
  import opened Options
  import opened RealtimeModel
  import opened RealtimeSafety

  ghost predicate Increasing(log: seq<Entry>) {
    forall i, j :: 0 <= i < j < |log| ==> log[i].id < log[j].id
  }

  /** handled is log[a..b] where a and b are the positions of the first and the present cursor. */
  ghost predicate HistoryOk(log: seq<Entry>, v: Conn) {
    match v.cursor
    case None => v.handled == [] && v.origin.None?
    case Some(k) =>
      && v.origin.Some? && v.origin.value <= k
      && (k == v.origin.value || exists i :: 0 <= i < |log| && log[i].id == k)
      && UpTo(log, v.origin.value) <= UpTo(log, k)
      && v.handled == log[UpTo(log, v.origin.value)..UpTo(log, k)]
  }

  ghost predicate ResumeOk(s: State) {
    && (forall url :: url in s.logs ==> Increasing(s.logs[url]))
    && (forall c :: c in s.conns ==> HistoryOk(Log(s, s.conns[c].serverUrl), s.conns[c]))
    && (forall c :: c in s.conns && s.conns[c].source.Some? && s.conns[c].cursor.Some? ==>
          && s.conns[c].source.value in s.streams
          && s.streams[s.conns[c].source.value].after == s.conns[c].cursor.value)
  }

  // ---- Positions in a log ----

  lemma UpToIs(log: seq<Entry>, k: int, n: nat)
    requires Increasing(log) && n <= |log|
    requires forall i :: 0 <= i < n ==> log[i].id <= k
    requires n < |log| ==> log[n].id > k
    ensures UpTo(log, k) == n
  {
  }

  /** After the entry log[n], the position is n + 1. */
  lemma UpToEntry(log: seq<Entry>, n: nat)
    requires Increasing(log) && n < |log|
    ensures UpTo(log, log[n].id) == n + 1
  {
    UpToIs(log, log[n].id, n + 1);
  }

  lemma UpToAppend(log: seq<Entry>, e: Entry, k: int)
    requires Increasing(log + [e])
    ensures UpTo(log + [e], k) == if e.id <= k then |log| + 1 else UpTo(log, k)
  {
    var all := log + [e];
    assert Increasing(log) by {
      forall i, j | 0 <= i < j < |log| ensures log[i].id < log[j].id {
        assert all[i].id < all[j].id;
      }
    }
    if e.id <= k {
      forall i | 0 <= i < |all| ensures all[i].id <= k {
        if i < |log| { assert all[i].id < all[|log|].id; }
      }
      UpToIs(all, k, |log| + 1);
    } else {
      var n := UpTo(log, k);
      assert n < |log| ==> all[n] == log[n];
      forall i | 0 <= i < n ensures all[i].id <= k { assert all[i] == log[i]; }
      UpToIs(all, k, n);
    }
  }

  lemma SliceOfAppend(log: seq<Entry>, e: Entry, a: nat, b: nat)
    requires a <= b <= |log|
    ensures (log + [e])[a..b] == log[a..b]
  {
  }

  /** A server that emits one more entry does not change what has been received so far. */
  lemma HistoryAppend(log: seq<Entry>, e: Entry, v: Conn)
    requires Increasing(log + [e]) && HistoryOk(log, v)
    ensures HistoryOk(log + [e], v)
  {
    if v.cursor.Some? {
      var all := log + [e];
      var k, k0 := v.cursor.value, v.origin.value;
      UpToAppend(log, e, k);
      UpToAppend(log, e, k0);
      if k != k0 {
        var i :| 0 <= i < |log| && log[i].id == k;
        assert all[i].id == k && all[i].id < all[|log|].id;
        SliceOfAppend(log, e, UpTo(log, k0), UpTo(log, k));
      }
    }
  }

  // ---- Steps that leave every history alone ----

  /** Nothing that exactly-once resume depends on has changed, except that streams may have been dropped and
      new, blank connections made. */
  ghost predicate Kept(s: State, r: State) {
    r.logs == s.logs && KeptRecords(s.conns, s.streams, r.conns, r.streams)
  }

  ghost predicate KeptRecords(conns: Records, streams: map<Handle, Stream>,
                              conns': Records, streams': map<Handle, Stream>) {
    && conns.Keys <= conns'.Keys
    && (forall c :: c in conns ==>
          && conns'[c].serverUrl == conns[c].serverUrl && conns'[c].cursor == conns[c].cursor
          && conns'[c].origin == conns[c].origin && conns'[c].handled == conns[c].handled
          && (conns'[c].source.None? || conns'[c].source == conns[c].source))
    && (forall c :: c in conns' && c !in conns ==>
          conns'[c].cursor.None? && conns'[c].origin.None? && conns'[c].handled == [])
    && (forall h :: h in streams ==> h in streams' && streams'[h].after == streams[h].after)
  }

  lemma KeptKeeps(s: State, r: State)
    requires ResumeOk(s) && Kept(s, r)
    ensures ResumeOk(r)
  {
    forall c | c in r.conns
      ensures HistoryOk(Log(r, r.conns[c].serverUrl), r.conns[c])
    {
      if c in s.conns {
        assert HistoryOk(Log(s, s.conns[c].serverUrl), s.conns[c]);
      }
    }
  }

  lemma KeptTrans(s: State, m: State, r: State)
    requires Kept(s, m) && Kept(m, r)
    ensures Kept(s, r)
  {
  }

  /** Nothing relevant changes, or a stream is closed. */
  lemma SameKept(s: State, r: State)
    requires r.conns == s.conns && r.logs == s.logs
    requires r.streams == s.streams || exists h :: h in s.streams && r.streams == Closed(s.streams, Some(h))
    ensures Kept(s, r)
  {
  }

  /** One connection's other fields change, and its stream may be dropped. */
  lemma LocalKept(s: State, r: State, c: ServerConnection)
    requires c in s.conns && c in r.conns && r.conns == s.conns[c := r.conns[c]] && r.logs == s.logs
    requires r.conns[c].serverUrl == s.conns[c].serverUrl && r.conns[c].cursor == s.conns[c].cursor
    requires r.conns[c].origin == s.conns[c].origin && r.conns[c].handled == s.conns[c].handled
    requires r.conns[c].source.None? || r.conns[c].source == s.conns[c].source
    requires r.streams == s.streams || r.streams == Closed(s.streams, s.conns[c].source)
    ensures Kept(s, r)
  {
  }

  lemma StartSessionKept(s: State, c: ServerConnection)
    requires c in s.conns
    ensures Kept(s, StartSession(ClearTimer(s, c), c))
  {
    var s1 := ClearTimer(s, c);
    LocalKept(s, s1, c);
    LocalKept(s1, StartSession(s1, c), c);
    KeptTrans(s, s1, StartSession(s1, c));
  }

  lemma ConnectRealtimeSseKept(s: State, c: ServerConnection)
    requires c in s.conns
    ensures Kept(s, ConnectRealtimeSse(s, c))
  {
    if !Current(s, c) || Busy(s.conns[c]) || !HasToken(s, s.conns[c].serverId) {
      SameKept(s, s);
    } else if Covered(s, c) {
      LocalKept(s, ConnectRealtimeSse(s, c), c);
    } else {
      StartSessionKept(s, c);
    }
  }

  lemma ConnectRealtimeKept(s: State, c: ServerConnection)
    requires c in s.conns
    ensures Kept(s, ConnectRealtime(s, c))
  {
    var s1 := CloseSource(s, c);
    LocalKept(s, s1, c);
    ConnectRealtimeSseKept(s1, c);
    KeptTrans(s, s1, ConnectRealtimeSse(s1, c));
  }

  lemma ReconnectKept(s: State, c: ServerConnection)
    requires c in s.conns
    ensures Kept(s, ReconnectGateway(s, c))
  {
    if s.conns[c].allow && s.conns[c].timer.None? && Current(s, c) && !s.offline {
      LocalKept(s, StartRetry(s, c), c);
    }
  }

  lemma DropAndRetryKept(s: State, c: ServerConnection)
    requires c in s.conns
    ensures Kept(s, DropAndRetry(s, c))
  {
    var s1 := CloseSource(s, c);
    var s2 := Put(s1, c, s1.conns[c].(connected := false, connecting := false));
    LocalKept(s, s1, c);
    LocalKept(s1, s2, c);
    ReconnectKept(s2, c);
    KeptTrans(s, s1, s2);
    KeptTrans(s, s2, ReconnectGateway(s2, c));
  }

  lemma HandlePayloadKept(s: State, c: ServerConnection, op: Op)
    requires c in s.conns
    ensures Kept(s, HandlePayload(s, c, op))
  {
    match op
    case Ready(session) => LocalKept(s, HandlePayload(s, c, op), c);
    case Dispatch(_) =>
    case HeartbeatAck =>
    case Reconnect => DropAndRetryKept(s, c);
    case InvalidSession =>
      var s1 := Put(s, c, s.conns[c].(session := None));
      LocalKept(s, s1, c);
      DropAndRetryKept(s1, c);
      KeptTrans(s, s1, DropAndRetry(s1, c));
  }

  lemma CreateKept(s: State, id: string, url: string, made: ServerConnection)
    requires made !in s.conns
    ensures Kept(s, CreateConnection(s, id, url, made))
  {
    var s1 := Insert(s, id, url, made);
    assert Kept(s, s1);
    ConnectRealtimeKept(s1, made);
    KeptTrans(s, s1, ConnectRealtime(s1, made));
  }

  lemma RejoinKept(s: State, id: string)
    requires id in s.connections && s.connections[id] in s.conns
    ensures Kept(s, Rejoin(s, id))
  {
    var c := s.connections[id];
    var s1 := Put(s, c, s.conns[c].(allow := true));
    LocalKept(s, s1, c);
    ConnectRealtimeKept(s1, c);
    KeptTrans(s, s1, ConnectRealtime(s1, c));
  }

  lemma DisconnectKept(s: State, id: string)
    requires id in s.connections && s.connections[id] in s.conns
    ensures Kept(s, DoDisconnect(s, id))
  {
    var c := s.connections[id];
    var s1 := ClearTimer(s, c);
    var s2 := CloseSource(s1, c);
    LocalKept(s, s1, c);
    LocalKept(s1, s2, c);
    LocalKept(s2, DoDisconnect(s, id), c);
    KeptTrans(s, s1, s2);
    KeptTrans(s, s2, DoDisconnect(s, id));
  }

  lemma SettleKept(s: State, s1: State, id: string)
    requires Kept(s, s1)
    ensures Kept(s, s1.(inFlight := s1.inFlight[id := Settled]))
  {
    var r := s1.(inFlight := s1.inFlight[id := Settled]);
    SameKept(s1, r);
    KeptTrans(s, s1, r);
  }

  lemma RejoinThenSettleKept(s: State, id: string)
    requires id in s.connections && s.connections[id] in s.conns
    ensures Kept(s, Rejoin(s, id).(inFlight := Rejoin(s, id).inFlight[id := Settled]))
  {
    RejoinKept(s, id);
    SettleKept(s, Rejoin(s, id), id);
  }

  lemma CreateThenSettleKept(s: State, id: string, url: string, made: ServerConnection)
    requires made !in s.conns
    ensures var r := CreateConnection(s, id, url, made); Kept(s, r.(inFlight := r.inFlight[id := Settled]))
  {
    CreateKept(s, id, url, made);
    SettleKept(s, CreateConnection(s, id, url, made), id);
  }

  lemma ConnectServerKept(s: State, id: string, can: bool, made: Option<ServerConnection>)
    requires New(s, made)
    ensures Kept(s, DoConnectServer(s, id, can, made))
  {
    if id in s.inFlight || (id in s.connections && s.connections[id] !in s.conns) {
      SameKept(s, s);
    } else if id in s.connections {
      RejoinThenSettleKept(s, id);
    } else if id in s.servers && s.servers[id].token {
      if made.Some? { CreateThenSettleKept(s, id, s.servers[id].url, made.value); } else { SameKept(s, s); }
    } else {
      UnstartedKept(s, id, if id in s.servers && can then Authenticating(s.servers[id].url) else Settled);
    }
  }

  lemma UnstartedKept(s: State, id: string, task: Task)
    ensures Kept(s, s.(inFlight := s.inFlight[id := task]))
  {
    SameKept(s, s.(inFlight := s.inFlight[id := task]));
  }

  lemma AuthDoneKept(s: State, id: string, ok: bool, made: Option<ServerConnection>)
    requires id in s.inFlight && s.inFlight[id].Authenticating? && New(s, made)
    ensures Kept(s, DoAuthDone(s, id, ok, made))
  {
    var s0 := s.(inFlight := s.inFlight[id := Settled]);
    SameKept(s, s0);
    if ok && made.Some? {
      var servers := if id in s.servers then s.servers[id := s.servers[id].(token := true)] else s.servers;
      var s1 := s0.(localToken := true, servers := servers);
      SameKept(s, s1);
      CreateKept(s1, id, s.inFlight[id].url, made.value);
      KeptTrans(s, s1, DoAuthDone(s, id, ok, made));
    }
  }

  lemma ConnectLocalKept(s: State, url: string, made: Option<ServerConnection>)
    requires New(s, made)
    ensures Kept(s, DoConnectLocal(s, url, made))
  {
    var id := LOCAL_SERVER_ID;
    if id in s.inFlight || !s.localToken || (id in s.connections && s.connections[id] !in s.conns)
       || (id !in s.connections && made.None?) {
      SameKept(s, DoConnectLocal(s, url, made));
    } else if id in s.connections {
      RejoinKept(s, id);
      SettleKept(s, Rejoin(s, id), id);
    } else {
      CreateKept(s, id, url, made.value);
      SettleKept(s, CreateConnection(s, id, url, made.value), id);
    }
  }

  lemma StreamOpenKept(s: State, h: Handle)
    requires h in s.streams && s.streams[h].conn in s.conns
    ensures Kept(s, DoStreamOpen(s, h))
  {
    if Current(s, s.streams[h].conn) && s.conns[s.streams[h].conn].source == Some(h) {
      LocalKept(s, DoStreamOpen(s, h), s.streams[h].conn);
    } else {
      StaleOpenKept(s, h);
    }
  }

  lemma StaleOpenKept(s: State, h: Handle)
    requires h in s.streams
    ensures Kept(s, s.(streams := s.streams[h := s.streams[h].(open := false)]))
  {
    var r := s.(streams := s.streams[h := s.streams[h].(open := false)]);
    assert r.streams == Closed(s.streams, Some(h));
    SameKept(s, r);
  }

  lemma TimerFiresKept(s: State, t: Handle)
    requires t in s.timers && s.timers[t].conn in s.conns
    ensures Kept(s, DoTimerFires(s, t))
  {
    var c := s.timers[t].conn;
    var s1 := Put(s, c, s.conns[c].(timer := None)).(timers := s.timers - {t});
    LocalKept(s, s1, c);
    ConnectRealtimeKept(s1, c);
    KeptTrans(s, s1, ConnectRealtime(s1, c));
  }

  /** Every event but a session answer, a stream message and a server emission. */
  lemma OtherEventsKept(s: State, e: Event)
    requires Enabled(s, e) && !e.PostDone? && !e.StreamMessage? && !e.ServerEmits?
    ensures Kept(s, Step(s, e))
  {
    match e
    case ConnectServer(id, can, made) => ConnectServerKept(s, id, can, made);
    case AuthDone(id, ok, made) => AuthDoneKept(s, id, ok, made);
    case ConnectLocal(url, made) => ConnectLocalKept(s, url, made);
    case StreamOpen(h) => StreamOpenKept(s, h);
    case StreamError(h) => DropAndRetryKept(s, s.streams[h].conn);
    case TimerFires(t) => TimerFiresKept(s, t);
    case DisconnectServer(id) => if id in s.connections { DisconnectKept(s, id); }
    case _ =>
  }

  ghost predicate StreamsKept(s: State, r: State) {
    forall h :: h in s.streams ==> h in r.streams && r.streams[h].after == s.streams[h].after
  }

  lemma PostDoneStreams(s: State, p: Handle, reply: Reply)
    requires Inv(s) && p in s.posts
    ensures StreamsKept(s, DoPostDone(s, p, reply))
  {
    var c := s.posts[p];
    var s0 := s.(posts := s.posts - {p});
    match reply
    case SessionOk(_, _) =>
    case OpenFailed(session, cursor) => SessionLostKept(Put(s0, c, AdoptSession(s0.conns[c], session, cursor)), c);
    case SessionFailed => SessionLostKept(s0, c);
  }

  /** A stream that was made is remembered, and moves only with its own messages. */
  lemma StreamsStay(s: State, e: Event)
    requires Inv(s) && Enabled(s, e)
    ensures forall h :: h in s.streams ==>
              h in Step(s, e).streams && (e == StreamMessage(h) || Step(s, e).streams[h].after == s.streams[h].after)
  {
    match e
    case PostDone(p, reply) => PostDoneStreams(s, p, reply);
    case StreamMessage(h) => MessageStreams(s, h);
    case ServerEmits(_, _) =>
    case _ => OtherEventsKept(s, e);
  }

  lemma MessageStreams(s: State, h: Handle)
    requires h in s.streams && s.streams[h].conn in s.conns
    ensures forall k :: k in s.streams ==>
              k in DoStreamMessage(s, h).streams
              && (k == h || DoStreamMessage(s, h).streams[k].after == s.streams[k].after)
  {
    var c := s.streams[h].conn;
    var log := Log(s, s.conns[c].serverUrl);
    var n := UpTo(log, s.streams[h].after);
    if n < |log| { HandlePayloadKept(Received(s, h, log[n]), c, log[n].op); }
  }

  // ---- The three events that matter ----

  lemma AdoptHistory(log: seq<Entry>, v: Conn, session: Option<string>, cursor: Option<nat>)
    requires HistoryOk(log, v)
    ensures HistoryOk(log, AdoptSession(v, session, cursor))
  {
  }

  /** One connection's record changes to one with a correct history, and it holds no stream. */
  lemma PutResumes(s: State, c: ServerConnection, v: Conn)
    requires ResumeOk(s) && c in s.conns && v.serverUrl == s.conns[c].serverUrl && v.source.None?
    requires HistoryOk(Log(s, v.serverUrl), v)
    ensures ResumeOk(Put(s, c, v))
  {
    var r := Put(s, c, v);
    forall d | d in r.conns
      ensures HistoryOk(Log(r, r.conns[d].serverUrl), r.conns[d])
    {
      if d != c {
        assert HistoryOk(Log(s, s.conns[d].serverUrl), s.conns[d]);
      }
    }
  }

  /** A stream opened at the present cursor starts where the connection left off. */
  lemma OpenStreamResumes(s: State, c: ServerConnection)
    requires Inv(s) && ResumeOk(s) && c in s.conns && s.conns[c].source.None?
    ensures ResumeOk(OpenStream(s, c))
  {
    assert s.next !in s.streams;
    OpenStreamHistories(s, c);
  }

  lemma OpenStreamHistories(s: State, c: ServerConnection)
    requires ResumeOk(s) && c in s.conns
    ensures var r := OpenStream(s, c);
            forall d :: d in r.conns ==> HistoryOk(Log(r, r.conns[d].serverUrl), r.conns[d])
  {
    var r := OpenStream(s, c);
    forall d | d in r.conns
      ensures HistoryOk(Log(r, r.conns[d].serverUrl), r.conns[d])
    {
      assert HistoryOk(Log(s, s.conns[d].serverUrl), s.conns[d]);
    }
  }

  lemma SessionOkResumes(s: State, c: ServerConnection, session: Option<string>, cursor: Option<nat>)
    requires Inv(s) && ResumeOk(s) && Current(s, c) && NoPost(s, c)
    requires s.conns[c].connecting && s.conns[c].source.None?
    ensures ResumeOk(OpenStream(Put(s, c, AdoptSession(s.conns[c], session, cursor)), c))
  {
    var v := AdoptSession(s.conns[c], session, cursor);
    AdoptHistory(Log(s, s.conns[c].serverUrl), s.conns[c], session, cursor);
    PutResumes(s, c, v);
    PutKeeps(s, c, v);
    OpenStreamResumes(Put(s, c, v), c);
  }

  lemma SessionLostKept(s: State, c: ServerConnection)
    requires c in s.conns
    ensures Kept(s, SessionLost(s, c))
  {
    var s1 := Put(s, c, s.conns[c].(connecting := false, connected := false));
    LocalKept(s, s1, c);
    ReconnectKept(s1, c);
    KeptTrans(s, s1, ReconnectGateway(s1, c));
  }

  lemma OpenFailedResumes(s: State, c: ServerConnection, session: Option<string>, cursor: Option<nat>)
    requires Inv(s) && ResumeOk(s) && Current(s, c) && NoPost(s, c)
    requires s.conns[c].connecting && s.conns[c].source.None?
    ensures ResumeOk(SessionLost(Put(s, c, AdoptSession(s.conns[c], session, cursor)), c))
  {
    var v := AdoptSession(s.conns[c], session, cursor);
    AdoptHistory(Log(s, s.conns[c].serverUrl), s.conns[c], session, cursor);
    PutResumes(s, c, v);
    PutKeeps(s, c, v);
    SessionLostKept(Put(s, c, v), c);
    KeptKeeps(Put(s, c, v), SessionLost(Put(s, c, v), c));
  }

  lemma PostDoneResumes(s: State, p: Handle, reply: Reply)
    requires Inv(s) && ResumeOk(s) && p in s.posts
    ensures ResumeOk(DoPostDone(s, p, reply))
  {
    var c := s.posts[p];
    var s0 := s.(posts := s.posts - {p});
    SameKept(s, s0);
    KeptKeeps(s, s0);
    ForgetPostKeeps(s, p);
    if Current(s0, c) {
      match reply
      case SessionOk(session, cursor) =>
        SessionOkResumes(s0, c, session, cursor);
      case OpenFailed(session, cursor) =>
        OpenFailedResumes(s0, c, session, cursor);
      case SessionFailed =>
        SessionLostKept(s0, c);
        KeptKeeps(s0, SessionLost(s0, c));
    }
  }

  lemma ReceivedHistory(log: seq<Entry>, v: Conn, after: int, n: nat)
    requires Increasing(log) && HistoryOk(log, v) && n == UpTo(log, after) && n < |log|
    requires v.cursor.Some? ==> after == v.cursor.value
    ensures HistoryOk(log, v.(cursor := Some(log[n].id), handled := v.handled + [log[n]],
                              origin := if v.origin.Some? then v.origin else Some(after)))
  {
    UpToEntry(log, n);
    if v.cursor.Some? {
      OneMoreEntry(log, UpTo(log, v.origin.value), n);
    } else {
      OneMoreEntry(log, n, n);
      assert log[n..n] == [];
    }
  }

  lemma OneMoreEntry(log: seq<Entry>, a: nat, n: nat)
    requires a <= n < |log|
    ensures log[a..n] + [log[n]] == log[a..n + 1]
  {
  }

  lemma StreamMessageResumes(s: State, h: Handle)
    requires Inv(s) && ResumeOk(s) && h in s.streams
    ensures ResumeOk(DoStreamMessage(s, h))
  {
    var c := s.streams[h].conn;
    if Current(s, c) && s.conns[c].source == Some(h) {
      var log := Log(s, s.conns[c].serverUrl);
      var n := UpTo(log, s.streams[h].after);
      if n < |log| {
        ReceivedHistory(log, s.conns[c], s.streams[h].after, n);
        ReceivedResumes(s, h, n);
        HandlePayloadKept(Received(s, h, log[n]), c, log[n].op);
        KeptKeeps(Received(s, h, log[n]), DoStreamMessage(s, h));
      }
    }
  }

  lemma ReceivedResumes(s: State, h: Handle, n: nat)
    requires Inv(s) && ResumeOk(s) && h in s.streams && s.conns[s.streams[h].conn].source == Some(h)
    requires var log := Log(s, s.conns[s.streams[h].conn].serverUrl);
             && n < |log| && HistoryOk(log, Received(s, h, log[n]).conns[s.streams[h].conn])
    ensures ResumeOk(Received(s, h, Log(s, s.conns[s.streams[h].conn].serverUrl)[n]))
  {
    var c := s.streams[h].conn;
    var r := Received(s, h, Log(s, s.conns[c].serverUrl)[n]);
    forall d | d in r.conns && d != c
      ensures HistoryOk(Log(r, r.conns[d].serverUrl), r.conns[d])
      ensures r.conns[d].source != Some(h)
    {
      assert HistoryOk(Log(s, s.conns[d].serverUrl), s.conns[d]);
    }
  }

  lemma ServerEmitsResumes(s: State, url: string, entry: Entry)
    requires ResumeOk(s) && Enabled(s, ServerEmits(url, entry))
    ensures ResumeOk(Step(s, ServerEmits(url, entry)))
  {
    var log := Log(s, url);
    assert Increasing(log + [entry]);
    var r := Step(s, ServerEmits(url, entry));
    forall c | c in r.conns
      ensures HistoryOk(Log(r, r.conns[c].serverUrl), r.conns[c])
    {
      assert HistoryOk(Log(s, s.conns[c].serverUrl), s.conns[c]);
      if Normalize(s.conns[c].serverUrl) == Normalize(url) {
        HistoryAppend(log, entry, s.conns[c]);
      }
    }
  }

  lemma StepResumes(s: State, e: Event)
    requires Inv(s) && ResumeOk(s)
    ensures ResumeOk(Step(s, e))
  {
    if Enabled(s, e) {
      match e
      case PostDone(p, reply) => PostDoneResumes(s, p, reply);
      case StreamMessage(h) => StreamMessageResumes(s, h);
      case ServerEmits(url, entry) => ServerEmitsResumes(s, url, entry);
      case _ => OtherEventsResume(s, e);
    }
  }

  lemma OtherEventsResume(s: State, e: Event)
    requires ResumeOk(s) && Enabled(s, e) && !e.PostDone? && !e.StreamMessage? && !e.ServerEmits?
    ensures ResumeOk(Step(s, e))
  {
    OtherEventsKept(s, e);
    KeptKeeps(s, Step(s, e));
  }

  lemma {:induction false} EveryRunResumes(events: seq<Event>)
    ensures ResumeOk(Run(Init, events))
    decreases |events|
  {
    if events != [] {
      EveryRunResumes(events[..|events| - 1]);
      EveryRunKeeps(events[..|events| - 1]);
      StepResumes(Run(Init, events[..|events| - 1]), events[|events| - 1]);
    }
  }

  // ---- Cursors ----

  /** Once a connection has a first cursor it keeps it, and its present cursor never goes back. */
  ghost predicate CursorsKeep(v: Conn, w: Conn) {
    v.cursor.Some? ==> w.cursor.Some? && w.origin == v.origin && v.cursor.value <= w.cursor.value
  }

  lemma CursorNeverGoesBack(s: State, e: Event, c: ServerConnection)
    requires Inv(s) && ResumeOk(s) && c in s.conns
    ensures c in Step(s, e).conns && CursorsKeep(s.conns[c], Step(s, e).conns[c])
  {
    if !Enabled(s, e) {
      assert Step(s, e) == s;
    } else if e.PostDone? {
      PostDoneCursor(s, e.post, e.reply, c);
    } else if e.StreamMessage? {
      StreamMessageCursor(s, e.h, c);
    } else if e.ServerEmits? {
      EmissionKeepsConns(s, e);
    } else {
      OtherEventsKept(s, e);
    }
  }

  lemma EmissionKeepsConns(s: State, e: Event)
    requires e.ServerEmits?
    ensures Step(s, e).conns == s.conns
  {
  }

  lemma PostDoneCursor(s: State, p: Handle, reply: Reply, c: ServerConnection)
    requires Inv(s) && ResumeOk(s) && p in s.posts && c in s.conns
    ensures c in DoPostDone(s, p, reply).conns && CursorsKeep(s.conns[c], DoPostDone(s, p, reply).conns[c])
  {
    var s0 := s.(posts := s.posts - {p});
    if c != s.posts[p] {
      PostDoneKeeps(s, p, reply);
    } else if Current(s0, c) {
      match reply
      case SessionOk(session, cursor) => AdoptKeepsCursor(s0, c, session, cursor);
      case OpenFailed(session, cursor) => OpenFailedCursor(s0, c, session, cursor);
      case SessionFailed => SessionLostKept(s0, c);
    }
  }

  lemma OpenFailedCursor(s: State, c: ServerConnection, session: Option<string>, cursor: Option<nat>)
    requires c in s.conns
    ensures var r := SessionLost(Put(s, c, AdoptSession(s.conns[c], session, cursor)), c);
            c in r.conns && CursorsKeep(s.conns[c], r.conns[c])
  {
    SessionLostKept(Put(s, c, AdoptSession(s.conns[c], session, cursor)), c);
  }

  lemma AdoptKeepsCursor(s: State, c: ServerConnection, session: Option<string>, cursor: Option<nat>)
    requires c in s.conns
    ensures var r := OpenStream(Put(s, c, AdoptSession(s.conns[c], session, cursor)), c);
            c in r.conns && CursorsKeep(s.conns[c], r.conns[c])
  {
  }

  lemma StreamMessageCursor(s: State, h: Handle, c: ServerConnection)
    requires Inv(s) && ResumeOk(s) && h in s.streams && c in s.conns
    ensures c in DoStreamMessage(s, h).conns && CursorsKeep(s.conns[c], DoStreamMessage(s, h).conns[c])
  {
    StreamMessageKeeps(s, h);
    var d := s.streams[h].conn;
    assert HistoryOk(Log(s, s.conns[d].serverUrl), s.conns[d]);
    if d == c && Current(s, c) && s.conns[c].source == Some(h) {
      var log := Log(s, s.conns[c].serverUrl);
      var n := UpTo(log, s.streams[h].after);
      if n < |log| {
        HandlePayloadKept(Received(s, h, log[n]), c, log[n].op);
      }
    }
  }
}
