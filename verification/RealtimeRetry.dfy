/**
 Retries.  In every run a pending timer waits for the time that belongs to the number of retries made since the
 connection last worked, whatever else happens in between.
 */
module RealtimeRetry {
  import opened Options
  import opened Numbers
  import opened RealtimeModel
  import opened RealtimeSafety
  import opened RealtimeLiveness

  type Timers = map<Handle, Timer>

  /** A pending retry is at least the first, waits for the backoff of the retries before it, and excludes a stream;
      and a connection with a stream says that it is connecting or connected. */
  predicate RecordOk(v: Conn, timers: Timers) {
    && (v.timer.Some? ==>
          && 1 <= v.attempts && v.source.None? && v.timer.value in timers
          && timers[v.timer.value].delay == Backoff(v.attempts - 1))
    && (v.source.Some? ==> v.connecting || v.connected)
  }

  ghost predicate RetryOk(s: State) {
    forall c :: c in s.conns ==> RecordOk(s.conns[c], s.timers)
  }

  // ---- A change of one connection ----

  /** The timers of the other connections are untouched. */
  ghost predicate Timely(s: State, r: State, c: ServerConnection) {
    forall t :: t in s.timers && s.timers[t].conn != c ==> t in r.timers && r.timers[t] == s.timers[t]
  }

  ghost predicate Fine(s: State, r: State, c: ServerConnection) {
    Timely(s, r, c) && c in r.conns && RecordOk(r.conns[c], r.timers)
  }

  /** What the timer of c is, when there is one. */
  predicate OwnTimer(s: State, c: ServerConnection) {
    c in s.conns &&
    (s.conns[c].timer.Some? ==> s.conns[c].timer.value in s.timers && s.timers[s.conns[c].timer.value].conn == c)
  }

  lemma LocalFine(s: State, r: State, c: ServerConnection)
    requires Inv(s) && RetryOk(s) && Local(s, r, c) && Fine(s, r, c)
    ensures RetryOk(r)
  {
    forall d | d in r.conns ensures RecordOk(r.conns[d], r.timers) {
      if d != c {
        assert RecordOk(s.conns[d], s.timers);
        assert s.conns[d].timer.Some? ==> s.timers[s.conns[d].timer.value].conn == d;
      }
    }
  }

  lemma StartFine(s: State, c: ServerConnection)
    requires OwnTimer(s, c) && s.conns[c].source.None?
    ensures Fine(s, StartSession(ClearTimer(s, c), c), c)
  {
  }

  lemma ConnectSseFine(s: State, c: ServerConnection)
    requires OwnTimer(s, c) && RecordOk(s.conns[c], s.timers)
    ensures Fine(s, ConnectRealtimeSse(s, c), c)
  {
    if !Current(s, c) || Busy(s.conns[c]) || !HasToken(s, s.conns[c].serverId) {
      assert ConnectRealtimeSse(s, c) == s;
    } else if Covered(s, c) {
      assert ConnectRealtimeSse(s, c) == Put(s, c, s.conns[c].(connected := true, connecting := false));
    } else {
      StartFine(s, c);
    }
  }

  lemma ConnectFine(s: State, c: ServerConnection)
    requires OwnTimer(s, c) && RecordOk(s.conns[c], s.timers)
    ensures Fine(s, ConnectRealtime(s, c), c)
  {
    ConnectSseFine(CloseSource(s, c), c);
  }

  lemma RetryFine(s: State, c: ServerConnection)
    requires OwnTimer(s, c) && RecordOk(s.conns[c], s.timers) && s.conns[c].source.None?
    requires forall t :: t in s.timers ==> t < s.next
    ensures Fine(s, ReconnectGateway(s, c), c)
  {
  }

  lemma DropFine(s: State, c: ServerConnection)
    requires OwnTimer(s, c) && RecordOk(s.conns[c], s.timers) && forall t :: t in s.timers ==> t < s.next
    ensures Fine(s, DropAndRetry(s, c), c)
  {
    var s1 := CloseSource(s, c);
    RetryFine(Put(s1, c, s1.conns[c].(connected := false, connecting := false)), c);
  }

  lemma PayloadFine(s: State, c: ServerConnection, op: Op)
    requires OwnTimer(s, c) && RecordOk(s.conns[c], s.timers) && forall t :: t in s.timers ==> t < s.next
    requires s.conns[c].timer.None?
    ensures Fine(s, HandlePayload(s, c, op), c)
  {
    match op
    case Reconnect => DropFine(s, c);
    case InvalidSession => DropFine(Put(s, c, s.conns[c].(session := None)), c);
    case _ =>
  }

  lemma SessionLostFine(s: State, c: ServerConnection)
    requires OwnTimer(s, c) && s.conns[c].timer.None? && s.conns[c].source.None?
    requires forall t :: t in s.timers ==> t < s.next
    ensures Fine(s, SessionLost(s, c), c)
  {
    RetryFine(Put(s, c, s.conns[c].(connecting := false, connected := false)), c);
  }

  // ---- Every event ----

  lemma AnsweredFine(s: State, c: ServerConnection, session: Option<string>, cursor: Option<nat>)
    requires c in s.conns && s.conns[c].connecting && s.conns[c].timer.None?
    ensures Fine(s, OpenStream(Put(s, c, AdoptSession(s.conns[c], session, cursor)), c), c)
  {
  }

  lemma PostDoneFine(s: State, p: Handle, reply: Reply)
    requires Inv(s) && RetryOk(s) && p in s.posts
    ensures Fine(s, DoPostDone(s, p, reply), s.posts[p])
  {
    var c := s.posts[p];
    var s0 := s.(posts := s.posts - {p});
    assert RecordOk(s.conns[c], s.timers);
    if Current(s0, c) {
      assert s0.conns[c].connecting && s0.conns[c].source.None? && s0.conns[c].timer.None? && s0.conns[c].allow;
      match reply
      case SessionOk(session, cursor) => AnsweredFine(s0, c, session, cursor);
      case OpenFailed(session, cursor) =>
        SessionLostFine(Put(s0, c, AdoptSession(s0.conns[c], session, cursor)), c);
      case SessionFailed => SessionLostFine(s0, c);
    }
  }

  lemma PostDoneRetry(s: State, p: Handle, reply: Reply)
    requires Inv(s) && RetryOk(s) && p in s.posts
    ensures RetryOk(DoPostDone(s, p, reply))
  {
    PostDoneKeeps(s, p, reply);
    PostDoneFine(s, p, reply);
    LocalFine(s, DoPostDone(s, p, reply), s.posts[p]);
  }

  lemma StreamOpenFine(s: State, h: Handle)
    requires RetryOk(s) && h in s.streams && s.streams[h].conn in s.conns
    ensures Fine(s, DoStreamOpen(s, h), s.streams[h].conn)
  {
    assert RecordOk(s.conns[s.streams[h].conn], s.timers);
  }

  lemma StreamOpenRetry(s: State, h: Handle)
    requires Inv(s) && RetryOk(s) && h in s.streams
    ensures RetryOk(DoStreamOpen(s, h))
  {
    StreamOpenKeeps(s, h);
    StreamOpenFine(s, h);
    LocalFine(s, DoStreamOpen(s, h), s.streams[h].conn);
  }

  lemma StreamMessageFine(s: State, h: Handle)
    requires RetryOk(s) && h in s.streams && s.streams[h].conn in s.conns
    requires forall t :: t in s.timers ==> t < s.next
    ensures Fine(s, DoStreamMessage(s, h), s.streams[h].conn)
  {
    var c := s.streams[h].conn;
    assert RecordOk(s.conns[c], s.timers);
    if Current(s, c) && s.conns[c].source == Some(h) {
      var log := Log(s, s.conns[c].serverUrl);
      var n := UpTo(log, s.streams[h].after);
      if n < |log| {
        PayloadFine(Received(s, h, log[n]), c, log[n].op);
      }
    }
  }

  lemma StreamMessageRetry(s: State, h: Handle)
    requires Inv(s) && RetryOk(s) && h in s.streams
    ensures RetryOk(DoStreamMessage(s, h))
  {
    StreamMessageKeeps(s, h);
    StreamMessageFine(s, h);
    LocalFine(s, DoStreamMessage(s, h), s.streams[h].conn);
  }

  lemma StreamErrorRetry(s: State, h: Handle)
    requires Inv(s) && RetryOk(s) && h in s.streams
    ensures RetryOk(DoStreamError(s, h))
  {
    var c := s.streams[h].conn;
    StreamErrorKeeps(s, h);
    DropFine(s, c);
    LocalFine(s, DoStreamError(s, h), c);
  }

  lemma TimerFine(s: State, t: Handle)
    requires RetryOk(s) && t in s.timers && s.timers[t].conn in s.conns
    ensures Fine(s, DoTimerFires(s, t), s.timers[t].conn)
  {
    var c := s.timers[t].conn;
    var s1 := Put(s, c, s.conns[c].(timer := None)).(timers := s.timers - {t});
    assert RecordOk(s.conns[c], s.timers);
    if s1.conns[c].allow && Current(s1, c) {
      ConnectFine(s1, c);
    }
  }

  lemma TimerRetry(s: State, t: Handle)
    requires Inv(s) && RetryOk(s) && t in s.timers
    ensures RetryOk(DoTimerFires(s, t))
  {
    TimerFiresKeeps(s, t);
    TimerFine(s, t);
    LocalFine(s, DoTimerFires(s, t), s.timers[t].conn);
  }

  lemma DisconnectRetry(s: State, id: string)
    requires Inv(s) && RetryOk(s)
    ensures RetryOk(DoDisconnect(s, id))
  {
    if id in s.connections {
      var c := s.connections[id];
      var r := DoDisconnect(s, id);
      forall d | d in r.conns ensures RecordOk(r.conns[d], r.timers) {
        if d != c {
          assert RecordOk(s.conns[d], s.timers) && r.conns[d] == s.conns[d];
          assert s.conns[d].timer.Some? ==> s.timers[s.conns[d].timer.value].conn == d;
        }
      }
    }
  }

  lemma RejoinRetry(s: State, id: string)
    requires Inv(s) && RetryOk(s) && id in s.connections
    ensures RetryOk(Rejoin(s, id))
  {
    var c := s.connections[id];
    RejoinKeeps(s, id);
    ConnectFine(Put(s, c, s.conns[c].(allow := true)), c);
    LocalFine(s, Rejoin(s, id), c);
  }

  lemma CreateRetry(s: State, id: string, url: string, made: ServerConnection)
    requires Inv(s) && RetryOk(s) && made !in s.conns && id !in s.connections
    requires id in s.inFlight ==> s.inFlight[id].Settled?
    ensures RetryOk(CreateConnection(s, id, url, made))
  {
    var s1 := Insert(s, id, url, made);
    InsertKeeps(s, id, url, made);
    ConnectRealtimeKeeps(s1, made);
    ConnectFine(s1, made);
    LocalFine(s1, ConnectRealtime(s1, made), made);
  }

  lemma TaskedRetry(s: State, id: string, task: Task)
    requires RetryOk(s)
    ensures RetryOk(s.(inFlight := s.inFlight[id := task]))
  {
  }

  lemma ConnectServerRetry(s: State, id: string, can: bool, made: Option<ServerConnection>)
    requires Inv(s) && RetryOk(s) && New(s, made)
    ensures RetryOk(DoConnectServer(s, id, can, made))
  {
    if id in s.inFlight {
    } else if id in s.connections {
      RejoinRetry(s, id);
      TaskedRetry(Rejoin(s, id), id, Settled);
    } else if id in s.servers && s.servers[id].token {
      if made.Some? {
        CreateRetry(s, id, s.servers[id].url, made.value);
        TaskedRetry(CreateConnection(s, id, s.servers[id].url, made.value), id, Settled);
      }
    } else {
      TaskedRetry(s, id, if id in s.servers && can then Authenticating(s.servers[id].url) else Settled);
    }
  }

  lemma AuthDoneRetry(s: State, id: string, ok: bool, made: Option<ServerConnection>)
    requires Inv(s) && RetryOk(s) && id in s.inFlight && s.inFlight[id].Authenticating? && New(s, made)
    ensures RetryOk(DoAuthDone(s, id, ok, made))
  {
    if ok && made.Some? {
      var servers := if id in s.servers then s.servers[id := s.servers[id].(token := true)] else s.servers;
      AuthorizedRetry(s, id, servers, made.value);
    } else {
      TaskedRetry(s, id, Settled);
    }
  }

  lemma AuthorizedRetry(s: State, id: string, servers: map<string, Server>, made: ServerConnection)
    requires Inv(s) && RetryOk(s) && id in s.inFlight && s.inFlight[id].Authenticating? && made !in s.conns
    ensures var s1 := s.(inFlight := s.inFlight[id := Settled]).(localToken := true, servers := servers);
            RetryOk(CreateConnection(s1, id, s.inFlight[id].url, made))
  {
    var s1 := s.(inFlight := s.inFlight[id := Settled]).(localToken := true, servers := servers);
    OutsideKeeps(s, s1);
    CreateRetry(s1, id, s.inFlight[id].url, made);
  }

  lemma ConnectLocalRetry(s: State, url: string, made: Option<ServerConnection>)
    requires Inv(s) && RetryOk(s) && New(s, made)
    ensures RetryOk(DoConnectLocal(s, url, made))
  {
    var id := LOCAL_SERVER_ID;
    if id in s.inFlight || !s.localToken {
    } else if id in s.connections {
      RejoinRetry(s, id);
    } else if made.Some? {
      CreateRetry(s, id, url, made.value);
    }
  }

  lemma StepRetry(s: State, e: Event)
    requires Inv(s) && RetryOk(s)
    ensures RetryOk(Step(s, e))
  {
    if Enabled(s, e) {
      match e
      case ConnectServer(id, can, made) => ConnectServerRetry(s, id, can, made);
      case AuthDone(id, ok, made) => AuthDoneRetry(s, id, ok, made);
      case ConnectLocal(url, made) => ConnectLocalRetry(s, url, made);
      case DisconnectServer(id) => DisconnectRetry(s, id);
      case _ => CallbackRetry(s, e);
    }
  }

  lemma CallbackRetry(s: State, e: Event)
    requires Inv(s) && RetryOk(s) && Enabled(s, e)
    requires !e.ConnectServer? && !e.AuthDone? && !e.ConnectLocal? && !e.DisconnectServer?
    ensures RetryOk(Step(s, e))
  {
    match e
    case PostDone(p, reply) => PostDoneRetry(s, p, reply);
    case StreamOpen(h) => StreamOpenRetry(s, h);
    case StreamMessage(h) => StreamMessageRetry(s, h);
    case StreamError(h) => StreamErrorRetry(s, h);
    case TimerFires(t) => TimerRetry(s, t);
    case _ =>
  }

  /** In every run every pending timer waits for Backoff(attempts - 1), and its connection holds no stream. */
  lemma {:induction false} EveryRunRetries(events: seq<Event>)
    ensures RetryOk(Run(Init, events))
    decreases |events|
  {
    if events != [] {
      EveryRunRetries(events[..|events| - 1]);
      EveryRunKeeps(events[..|events| - 1]);
      StepRetry(Run(Init, events[..|events| - 1]), events[|events| - 1]);
    }
  }

  // ---- What moves the attempt counter ----

  /** The entry that the stream delivers next. */
  function NextEntry(s: State, h: Handle): Option<Entry>
    requires h in s.streams && s.streams[h].conn in s.conns
  {
    var log := Log(s, s.conns[s.streams[h].conn].serverUrl);
    var n := UpTo(log, s.streams[h].after);
    if n < |log| then Some(log[n]) else None
  }

  /** h is the stream that the live connection c holds. */
  predicate Holds(s: State, h: Handle, c: ServerConnection) {
    h in s.streams && s.streams[h].conn == c && Current(s, c) && s.conns[c].source == Some(h)
  }

  /** The connection has just worked: its stream opened, or READY came. */
  predicate Resets(s: State, e: Event, c: ServerConnection) {
    match e
    case StreamOpen(h) => Holds(s, h, c)
    case StreamMessage(h) => Holds(s, h, c) && NextEntry(s, h).Some? && NextEntry(s, h).value.op.Ready?
    case _ => false
  }

  /** The connection has a timer that it had not before. */
  predicate Schedules(v: Conn, w: Conn) {
    w.timer.Some? && w.timer != v.timer
  }

  predicate Moved(v: Conn, w: Conn, reset: bool) {
    w.attempts == if reset then 0 else if Schedules(v, w) then v.attempts + 1 else v.attempts
  }

  lemma ReconnectMoves(s: State, c: ServerConnection)
    requires c in s.conns
    ensures c in ReconnectGateway(s, c).conns && Moved(s.conns[c], ReconnectGateway(s, c).conns[c], false)
  {
  }

  lemma DropMoves(s: State, c: ServerConnection)
    requires c in s.conns
    ensures c in DropAndRetry(s, c).conns && Moved(s.conns[c], DropAndRetry(s, c).conns[c], false)
  {
    var s1 := CloseSource(s, c);
    ReconnectMoves(Put(s1, c, s1.conns[c].(connected := false, connecting := false)), c);
  }

  lemma PayloadMoves(s: State, c: ServerConnection, op: Op)
    requires c in s.conns
    ensures c in HandlePayload(s, c, op).conns
    ensures op.Ready? ==> HandlePayload(s, c, op).conns[c].attempts == 0
    ensures !op.Ready? ==> Moved(s.conns[c], HandlePayload(s, c, op).conns[c], false)
  {
    match op
    case Reconnect => DropMoves(s, c);
    case InvalidSession => DropMoves(Put(s, c, s.conns[c].(session := None)), c);
    case _ =>
  }

  lemma ConnectMoves(s: State, c: ServerConnection)
    requires c in s.conns
    ensures var r := ConnectRealtime(s, c);
            c in r.conns && r.conns[c].attempts == s.conns[c].attempts
            && (r.conns[c].timer == s.conns[c].timer || r.conns[c].timer.None?)
  {
    var s1 := CloseSource(s, c);
    if Current(s1, c) && !Busy(s1.conns[c]) && HasToken(s1, s1.conns[c].serverId) && !Covered(s1, c) {
      assert ConnectRealtime(s, c) == StartSession(ClearTimer(s1, c), c);
    }
  }

  lemma PostDoneMoves(s: State, p: Handle, reply: Reply)
    requires p in s.posts && s.posts[p] in s.conns
    ensures var c := s.posts[p];
            c in DoPostDone(s, p, reply).conns && Moved(s.conns[c], DoPostDone(s, p, reply).conns[c], false)
  {
    var c := s.posts[p];
    var s0 := s.(posts := s.posts - {p});
    match reply
    case SessionOk(_, _) =>
    case OpenFailed(session, cursor) =>
      var s1 := Put(s0, c, AdoptSession(s0.conns[c], session, cursor));
      ReconnectMoves(Put(s1, c, s1.conns[c].(connecting := false, connected := false)), c);
    case SessionFailed =>
      ReconnectMoves(Put(s0, c, s0.conns[c].(connecting := false, connected := false)), c);
  }

  lemma MessageMoves(s: State, h: Handle)
    requires h in s.streams && s.streams[h].conn in s.conns
    ensures var c := s.streams[h].conn;
            c in DoStreamMessage(s, h).conns
            && Moved(s.conns[c], DoStreamMessage(s, h).conns[c], Resets(s, StreamMessage(h), c))
  {
    var c := s.streams[h].conn;
    if Holds(s, h, c) && NextEntry(s, h).Some? {
      PayloadMoves(Received(s, h, NextEntry(s, h).value), c, NextEntry(s, h).value.op);
    }
  }

  lemma OwnCallbackMoves(s: State, e: Event, c: ServerConnection)
    requires Inv(s) && RetryOk(s) && Enabled(s, e) && BelongsTo(s, e, c) && c in s.conns
    ensures c in Step(s, e).conns && Moved(s.conns[c], Step(s, e).conns[c], Resets(s, e, c))
  {
    match e
    case PostDone(p, reply) => PostDoneMoves(s, p, reply);
    case StreamOpen(h) => OpenMoves(s, h);
    case StreamMessage(h) => MessageMoves(s, h);
    case StreamError(h) => DropMoves(s, c);
    case TimerFires(t) => TimerMoves(s, t);
  }

  lemma OpenMoves(s: State, h: Handle)
    requires h in s.streams && s.streams[h].conn in s.conns
    ensures var c := s.streams[h].conn;
            c in DoStreamOpen(s, h).conns
            && Moved(s.conns[c], DoStreamOpen(s, h).conns[c], Resets(s, StreamOpen(h), c))
  {
  }

  lemma TimerMoves(s: State, t: Handle)
    requires t in s.timers && s.timers[t].conn in s.conns
    ensures var c := s.timers[t].conn;
            c in DoTimerFires(s, t).conns && Moved(s.conns[c], DoTimerFires(s, t).conns[c], false)
  {
    var c := s.timers[t].conn;
    ConnectMoves(Put(s, c, s.conns[c].(timer := None)).(timers := s.timers - {t}), c);
  }

  /** The counter goes up with every retry that is scheduled, back to 0 when the stream opens or READY comes, and is
      moved by nothing else. */
  lemma AttemptsMove(s: State, e: Event, c: ServerConnection)
    requires Inv(s) && RetryOk(s) && Enabled(s, e) && c in s.conns
    ensures c in Step(s, e).conns && Moved(s.conns[c], Step(s, e).conns[c], Resets(s, e, c))
  {
    if !Concerns(s, e, c) {
      OthersLeave(s, e, c);
    } else if e.ConnectServer? || e.ConnectLocal? {
      ConnectMoves(Put(s, c, s.conns[c].(allow := true)), c);
    } else if e.DisconnectServer? {
      assert DoDisconnect(s, e.id).conns[c].timer.None?;
    } else {
      OwnCallbackMoves(s, e, c);
    }
  }

  /** How many retries were scheduled for c since its stream last opened or READY last came. */
  function Retries(events: seq<Event>, c: ServerConnection): nat
    decreases |events|
  {
    if events == [] then 0
    else
      var init, e := events[..|events| - 1], events[|events| - 1];
      var s := Run(Init, init);
      if !Enabled(s, e) || c !in s.conns || c !in Step(s, e).conns then Retries(init, c)
      else if Resets(s, e, c) then 0
      else if Schedules(s.conns[c], Step(s, e).conns[c]) then Retries(init, c) + 1
      else Retries(init, c)
  }

  lemma {:induction false} AttemptsCount(events: seq<Event>, c: ServerConnection)
    ensures c in Run(Init, events).conns ==> Run(Init, events).conns[c].attempts == Retries(events, c)
    ensures c !in Run(Init, events).conns ==> Retries(events, c) == 0
    decreases |events|
  {
    if events != [] {
      var init, e := events[..|events| - 1], events[|events| - 1];
      var s := Run(Init, init);
      AttemptsCount(init, c);
      EveryRunKeeps(init);
      EveryRunRetries(init);
      if Enabled(s, e) {
        if c in s.conns {
          AttemptsMove(s, e, c);
        } else if c in Step(s, e).conns {
          NewRecord(s, e, c);
        }
      }
    }
  }

  lemma NewRecord(s: State, e: Event, c: ServerConnection)
    requires Inv(s) && Enabled(s, e) && c !in s.conns && c in Step(s, e).conns
    ensures Step(s, e).conns[c].attempts == 0
  {
    match e
    case ConnectServer(id, can, made) => NewByServer(s, id, can, made, c);
    case AuthDone(id, ok, made) => NewByAuth(s, id, ok, made, c);
    case ConnectLocal(url, made) => NewByLocal(s, url, made, c);
    case _ => NoNewRecord(s, e, c);
  }

  /** What connectServer does to the records. */
  lemma ServerRecords(s: State, id: string, can: bool, made: Option<ServerConnection>)
    requires id in s.connections ==> s.connections[id] in s.conns
    ensures DoConnectServer(s, id, can, made).conns ==
            if id in s.inFlight then s.conns
            else if id in s.connections then Rejoin(s, id).conns
            else if id in s.servers && s.servers[id].token && made.Some?
            then CreateConnection(s, id, s.servers[id].url, made.value).conns
            else s.conns
  {
  }

  lemma NewByServer(s: State, id: string, can: bool, made: Option<ServerConnection>, c: ServerConnection)
    requires Inv(s) && New(s, made) && c !in s.conns && c in DoConnectServer(s, id, can, made).conns
    ensures DoConnectServer(s, id, can, made).conns[c].attempts == 0
  {
    ServerRecords(s, id, can, made);
    if id !in s.inFlight {
      if id in s.connections {
        RejoinKeys(s, id);
      } else {
        CreatedRecord(s, id, s.servers[id].url, made.value);
      }
    }
  }

  lemma RejoinKeys(s: State, id: string)
    requires Inv(s) && id in s.connections
    ensures Rejoin(s, id).conns.Keys == s.conns.Keys
  {
    RejoinKeeps(s, id);
  }

  lemma NewByAuth(s: State, id: string, ok: bool, made: Option<ServerConnection>, c: ServerConnection)
    requires Inv(s) && New(s, made) && id in s.inFlight && s.inFlight[id].Authenticating?
    requires c !in s.conns && c in DoAuthDone(s, id, ok, made).conns
    ensures DoAuthDone(s, id, ok, made).conns[c].attempts == 0
  {
    var servers := if id in s.servers then s.servers[id := s.servers[id].(token := true)] else s.servers;
    var s1 := s.(inFlight := s.inFlight[id := Settled]).(localToken := true, servers := servers);
    OutsideKeeps(s, s1);
    if ok && made.Some? { CreatedRecord(s1, id, s.inFlight[id].url, made.value); }
  }

  lemma NewByLocal(s: State, url: string, made: Option<ServerConnection>, c: ServerConnection)
    requires Inv(s) && New(s, made) && c !in s.conns && c in DoConnectLocal(s, url, made).conns
    ensures DoConnectLocal(s, url, made).conns[c].attempts == 0
  {
    if LOCAL_SERVER_ID in s.inFlight || !s.localToken {
    } else if LOCAL_SERVER_ID in s.connections {
      RejoinKeys(s, LOCAL_SERVER_ID);
    } else if made.Some? {
      CreatedRecord(s, LOCAL_SERVER_ID, url, made.value);
    }
  }

  lemma CreatedRecord(s: State, id: string, url: string, c: ServerConnection)
    requires Inv(s) && c !in s.conns && id !in s.connections
    requires id in s.inFlight ==> s.inFlight[id].Settled?
    ensures CreateConnection(s, id, url, c).conns.Keys == s.conns.Keys + {c}
    ensures CreateConnection(s, id, url, c).conns[c].attempts == 0
  {
    InsertKeeps(s, id, url, c);
    ConnectRealtimeKeeps(Insert(s, id, url, c), c);
    ConnectMoves(Insert(s, id, url, c), c);
  }

  lemma NoNewRecord(s: State, e: Event, c: ServerConnection)
    requires Inv(s) && Enabled(s, e) && !e.ConnectServer? && !e.AuthDone? && !e.ConnectLocal? && c !in s.conns
    ensures c !in Step(s, e).conns
  {
    match e
    case PostDone(p, reply) => PostDoneKeeps(s, p, reply);
    case StreamOpen(h) => StreamOpenKeeps(s, h);
    case StreamMessage(h) => StreamMessageKeeps(s, h);
    case StreamError(h) => StreamErrorKeeps(s, h);
    case TimerFires(t) => TimerFiresKeeps(s, t);
    case _ =>
  }

  // ---- Backoff ----

  lemma {:induction false} Pow2AtLeast32(n: nat)
    requires n >= 5
    ensures Pow2(n) >= 32
  {
    if n == 5 {
      assert Pow2(5) == 2 * Pow2(4) == 4 * Pow2(3) == 8 * Pow2(2) == 16 * Pow2(1) == 32;
    } else {
      Pow2AtLeast32(n - 1);
    }
  }

  /** Clamping the exponent at 5 makes no difference: after the immediate first retry the n-th one waits
      min(1000 * 2^(n-1), 30000) milliseconds. */
  lemma BackoffClosedForm(n: nat)
    requires n >= 1
    ensures Backoff(n) == Min(1000 * Pow2(n - 1), 30000)
  {
    if n > 5 {
      Pow2AtLeast32(n - 1);
      Pow2AtLeast32(5);
    }
  }

  /** In every run a pending retry is immediate if it is the first since the connection last worked, and the n-th one
      after that waits min(1000 * 2^(n-1), 30000) milliseconds. */
  lemma NthRetryWaits(events: seq<Event>, c: ServerConnection)
    requires c in Run(Init, events).conns && Run(Init, events).conns[c].timer.Some?
    ensures var s, n := Run(Init, events), Retries(events, c) - 1;
            && n >= 0 && s.conns[c].timer.value in s.timers
            && s.timers[s.conns[c].timer.value].delay == if n == 0 then 0 else Min(1000 * Pow2(n - 1), 30000)
  {
    EveryRunRetries(events);
    AttemptsCount(events, c);
    assert RecordOk(Run(Init, events).conns[c], Run(Init, events).timers);
    if Retries(events, c) > 1 {
      BackoffClosedForm(Retries(events, c) - 1);
    }
  }
}
