/**
 What becomes of a live connection, event by event and over whole runs: when it is connecting, connected, holds a
 stream, waits for a session answer or for a retry.
 */
module RealtimeLifecycle {
  import opened Options
  import opened RealtimeModel
  import opened RealtimeSafety
  import opened RealtimeLiveness
  import opened RealtimeRetry
  import opened RealtimeOnline
  import RealtimeCovered
  import opened RealtimeResume

  // ---- One event: a live connection is a small machine that knows nothing of the others ----

  datatype Life = Life(source: Option<Handle>, connecting: bool, connected: bool, timer: Option<Handle>)

  /** What an event means for one live connection: it is asked to connect, by a call or by its own timer; its session
      request is answered; the stream it holds opens; its request or its stream fails. */
  datatype Happening = Called(byTimer: bool) | Answered | Opened | Failed | Nothing

  function LifeOf(v: Conn): Life { Life(v.source, v.connecting, v.connected, v.timer) }

  function Happens(s: State, e: Event, c: ServerConnection): Happening {
    match e
    case TimerFires(t) => if t in s.timers && s.timers[t].conn == c then Called(true) else Nothing
    case PostDone(p, reply) =>
      if p !in s.posts || s.posts[p] != c then Nothing else if reply.SessionOk? then Answered else Failed
    case StreamOpen(h) => if Holds(s, h, c) then Opened else Nothing
    case StreamMessage(_) => if Drops(s, e, c) then Failed else Nothing
    case StreamError(h) => if Holds(s, h, c) then Failed else Nothing
    case _ => if Asks(s, e, c) then Called(false) else Nothing
  }

  /** The connection sends a session request. */
  predicate Requests(l: Life, what: Happening, token: bool, covered: bool) {
    what.Called? && !l.connecting && token && !covered
  }

  /** A call ends the stream, and a connection that is not connecting already and has a token then sends a request or
      finds itself covered.  An answer brings a stream, whose opening ends the connecting.  A failure ends all of it and
      schedules a retry, unless one is pending or the browser is offline. */
  function LifeAfter(l: Life, what: Happening, token: bool, covered: bool, online: bool, next: Handle): Life {
    match what
    case Called(byTimer) =>
      var able := !l.connecting && token;
      Life(None, l.connecting || (able && !covered), l.connected || (able && covered),
           if byTimer || (able && !covered) then None else l.timer)
    case Answered => l.(source := Some(next))
    case Opened => l.(connecting := false, connected := true)
    case Failed => Life(None, false, false, if l.timer.None? && online then Some(next) else l.timer)
    case Nothing => l
  }

  /** The session requests that wait for c. */
  ghost function Waiting(posts: map<Handle, ServerConnection>, c: ServerConnection): set<Handle> {
    set p | p in posts && posts[p] == c
  }

  /** The record of c and its pending requests after something has happened to it. */
  ghost predicate Lives(s: State, what: Happening, c: ServerConnection, r: State) {
    && c in s.conns && c in r.conns
    && LifeOf(r.conns[c]) == LifeAfter(LifeOf(s.conns[c]), what, HasToken(s, s.conns[c].serverId), Covered(s, c),
                                       !s.offline, s.next)
    && Waiting(r.posts, c)
       == (if what.Answered? || what.Failed? then {} else Waiting(s.posts, c))
          + if Requests(LifeOf(s.conns[c]), what, HasToken(s, s.conns[c].serverId), Covered(s, c)) then {s.next} else {}
  }

  lemma SseLife(s: State, c: ServerConnection)
    requires Current(s, c) && s.conns[c].source.None?
    ensures var r := ConnectRealtimeSse(s, c);
            var able := !s.conns[c].connecting && HasToken(s, s.conns[c].serverId);
            && c in r.conns
            && LifeOf(r.conns[c]) == Life(None, s.conns[c].connecting || (able && !Covered(s, c)),
                                          s.conns[c].connected || (able && Covered(s, c)),
                                          if able && !Covered(s, c) then None else s.conns[c].timer)
            && r.posts == if able && !Covered(s, c) then s.posts[s.next := c] else s.posts
  {
    if s.conns[c].connecting || !HasToken(s, s.conns[c].serverId) {
      assert ConnectRealtimeSse(s, c) == s;
    } else if Covered(s, c) {
      assert ConnectRealtimeSse(s, c) == Put(s, c, s.conns[c].(connected := true, connecting := false));
    } else {
      StartLife(s, c);
    }
  }

  lemma StartLife(s: State, c: ServerConnection)
    requires c in s.conns && s.conns[c].source.None?
    ensures var r := StartSession(ClearTimer(s, c), c);
            && c in r.conns && r.posts == s.posts[s.next := c]
            && LifeOf(r.conns[c]) == Life(None, true, s.conns[c].connected, None)
  {
  }

  lemma ConnectLife(s: State, c: ServerConnection)
    requires Current(s, c)
    ensures var r := ConnectRealtime(s, c);
            var able := !s.conns[c].connecting && HasToken(s, s.conns[c].serverId);
            && c in r.conns
            && LifeOf(r.conns[c]) == Life(None, s.conns[c].connecting || (able && !Covered(s, c)),
                                          s.conns[c].connected || (able && Covered(s, c)),
                                          if able && !Covered(s, c) then None else s.conns[c].timer)
            && r.posts == if able && !Covered(s, c) then s.posts[s.next := c] else s.posts
  {
    RealtimeCovered.CoveredByOthers(s, CloseSource(s, c), c);
    SseLife(CloseSource(s, c), c);
  }

  lemma OneMore(posts: map<Handle, ServerConnection>, next: Handle, c: ServerConnection)
    requires next !in posts
    ensures Waiting(posts[next := c], c) == Waiting(posts, c) + {next}
  {
  }

  lemma RejoinLife(s: State, c: ServerConnection)
    requires Inv(s) && Current(s, c)
    ensures Lives(s, Called(false), c, Rejoin(s, s.conns[c].serverId))
  {
    var s1 := Put(s, c, s.conns[c].(allow := true));
    RealtimeCovered.CoveredByOthers(s, s1, c);
    ConnectLife(s1, c);
    NextIsNew(s);
    OneMore(s.posts, s.next, c);
    assert Rejoin(s, s.conns[c].serverId) == ConnectRealtime(s1, c);
  }

  lemma CallLife(s: State, e: Event, c: ServerConnection)
    requires Inv(s) && Enabled(s, e) && Current(s, c) && Asks(s, e, c)
    ensures Lives(s, Called(false), c, Step(s, e))
  {
    RejoinLife(s, c);
    SameLives(s, Called(false), c, Rejoin(s, s.conns[c].serverId), Step(s, e));
  }

  lemma SameLives(s: State, what: Happening, c: ServerConnection, m: State, r: State)
    requires Lives(s, what, c, m) && r.conns == m.conns && r.posts == m.posts
    ensures Lives(s, what, c, r)
  {
  }

  lemma TimerLife(s: State, t: Handle, c: ServerConnection)
    requires Inv(s) && Current(s, c) && t in s.timers && s.timers[t].conn == c
    ensures Lives(s, Called(true), c, DoTimerFires(s, t))
  {
    var s1 := Put(s, c, s.conns[c].(timer := None)).(timers := s.timers - {t});
    RealtimeCovered.CoveredByOthers(s, s1, c);
    ConnectLife(s1, c);
    NextIsNew(s);
    OneMore(s.posts, s.next, c);
    assert DoTimerFires(s, t) == ConnectRealtime(s1, c);
  }

  lemma ReconnectLife(s: State, c: ServerConnection)
    requires Current(s, c) && s.conns[c].allow
    ensures var r := ReconnectGateway(s, c);
            && c in r.conns && r.posts == s.posts
            && LifeOf(r.conns[c]) == LifeOf(s.conns[c]).(timer := if s.conns[c].timer.None? && !s.offline
                                                                  then Some(s.next) else s.conns[c].timer)
  {
  }

  lemma DropLife(s: State, c: ServerConnection)
    requires Current(s, c) && s.conns[c].allow
    ensures var r := DropAndRetry(s, c);
            && c in r.conns && r.posts == s.posts
            && LifeOf(r.conns[c]) == LifeAfter(LifeOf(s.conns[c]), Failed, false, false, !s.offline, s.next)
  {
    var s1 := CloseSource(s, c);
    ReconnectLife(Put(s1, c, s1.conns[c].(connected := false, connecting := false)), c);
  }

  lemma LostLife(s: State, c: ServerConnection)
    requires Current(s, c) && s.conns[c].allow && s.conns[c].source.None?
    ensures var r := SessionLost(s, c);
            && c in r.conns && r.posts == s.posts
            && LifeOf(r.conns[c]) == LifeAfter(LifeOf(s.conns[c]), Failed, false, false, !s.offline, s.next)
  {
    ReconnectLife(Put(s, c, s.conns[c].(connecting := false, connected := false)), c);
  }

  lemma AnsweredLife(s: State, c: ServerConnection, session: Option<string>, cursor: Option<nat>)
    requires c in s.conns
    ensures var r := OpenStream(Put(s, c, AdoptSession(s.conns[c], session, cursor)), c);
            && c in r.conns && r.posts == s.posts
            && LifeOf(r.conns[c]) == LifeOf(s.conns[c]).(source := Some(s.next))
  {
  }

  lemma OnlyPost(s: State, p: Handle, c: ServerConnection)
    requires Inv(s) && Current(s, c) && p in s.posts && s.posts[p] == c
    ensures Waiting(s.posts - {p}, c) == {}
  {
  }

  lemma PostRecord(s: State, p: Handle, reply: Reply, c: ServerConnection)
    requires Current(s, c) && s.conns[c].allow && s.conns[c].source.None? && p in s.posts && s.posts[p] == c
    ensures var r := DoPostDone(s, p, reply);
            && c in r.conns && r.posts == s.posts - {p}
            && LifeOf(r.conns[c]) == LifeAfter(LifeOf(s.conns[c]), if reply.SessionOk? then Answered else Failed,
                                               false, false, !s.offline, s.next)
  {
    var s0 := s.(posts := s.posts - {p});
    match reply
    case SessionOk(session, cursor) => AnsweredLife(s0, c, session, cursor);
    case OpenFailed(session, cursor) => LostLife(Put(s0, c, AdoptSession(s0.conns[c], session, cursor)), c);
    case SessionFailed => LostLife(s0, c);
  }

  lemma PostLife(s: State, p: Handle, reply: Reply, c: ServerConnection)
    requires Inv(s) && Current(s, c) && p in s.posts && s.posts[p] == c
    ensures Lives(s, if reply.SessionOk? then Answered else Failed, c, DoPostDone(s, p, reply))
  {
    assert s.conns[c].allow && s.conns[c].source.None?;
    OnlyPost(s, p, c);
    PostRecord(s, p, reply, c);
  }

  lemma PayloadLife(s: State, c: ServerConnection, op: Op)
    requires Current(s, c) && s.conns[c].allow
    ensures var r := HandlePayload(s, c, op);
            && c in r.conns && r.posts == s.posts
            && LifeOf(r.conns[c]) == if op.Reconnect? || op.InvalidSession?
                                     then LifeAfter(LifeOf(s.conns[c]), Failed, false, false, !s.offline, s.next)
                                     else LifeOf(s.conns[c])
  {
    match op
    case Reconnect => DropLife(s, c);
    case InvalidSession => DropLife(Put(s, c, s.conns[c].(session := None)), c);
    case _ =>
  }

  /** A connection that holds a stream waits for no answer. */
  lemma HolderWaitsNot(s: State, h: Handle, c: ServerConnection)
    requires Inv(s) && Holds(s, h, c)
    ensures Waiting(s.posts, c) == {}
  {
  }

  lemma ReadLife(s: State, h: Handle, c: ServerConnection, entry: Entry)
    requires Inv(s) && Holds(s, h, c)
    ensures Lives(s, if entry.op.Reconnect? || entry.op.InvalidSession? then Failed else Nothing, c,
                  HandlePayload(Received(s, h, entry), c, entry.op))
  {
    var s1 := Received(s, h, entry);
    HolderWaitsNot(s, h, c);
    assert Current(s1, c) && s1.conns[c].allow && LifeOf(s1.conns[c]) == LifeOf(s.conns[c]) && s1.posts == s.posts
           && s1.offline == s.offline && s1.next == s.next;
    PayloadLife(s1, c, entry.op);
  }

  lemma MessageLife(s: State, h: Handle, c: ServerConnection)
    requires Inv(s) && Current(s, c) && h in s.streams && s.streams[h].conn == c
    ensures Lives(s, if Drops(s, StreamMessage(h), c) then Failed else Nothing, c, DoStreamMessage(s, h))
  {
    if Holds(s, h, c) && NextEntry(s, h).Some? {
      var entry := NextEntry(s, h).value;
      ReadLife(s, h, c, entry);
      assert DoStreamMessage(s, h) == HandlePayload(Received(s, h, entry), c, entry.op);
    } else {
      assert DoStreamMessage(s, h) == s;
    }
  }

  lemma OpenLife(s: State, h: Handle, c: ServerConnection)
    requires Inv(s) && Current(s, c) && h in s.streams && s.streams[h].conn == c
    ensures Lives(s, if Holds(s, h, c) then Opened else Nothing, c, DoStreamOpen(s, h))
  {
    var r := DoStreamOpen(s, h);
    if Holds(s, h, c) {
      assert r == Put(s, c, s.conns[c].(connecting := false, connected := true, attempts := 0));
    } else {
      assert r.conns == s.conns && r.posts == s.posts;
    }
  }

  lemma ErrorLife(s: State, h: Handle, c: ServerConnection)
    requires Inv(s) && Current(s, c) && h in s.streams && s.streams[h].conn == c
    ensures Lives(s, if Holds(s, h, c) then Failed else Nothing, c, DoStreamError(s, h))
  {
    if Holds(s, h, c) {
      HolderWaitsNot(s, h, c);
      DropLife(s, c);
      assert DoStreamError(s, h) == DropAndRetry(s, c);
    } else {
      assert DoStreamError(s, h) == s;
    }
  }

  lemma UnconcernedNothing(s: State, e: Event, c: ServerConnection)
    requires Enabled(s, e) && !Concerns(s, e, c)
    ensures Happens(s, e, c).Nothing?
  {
  }

  lemma UnmovedLives(s: State, c: ServerConnection, r: State)
    requires Same(s, r, c)
    ensures Lives(s, Nothing, c, r)
  {
  }

  lemma CallbackLife(s: State, e: Event, c: ServerConnection)
    requires Inv(s) && Enabled(s, e) && Current(s, c) && BelongsTo(s, e, c)
    ensures Lives(s, Happens(s, e, c), c, Step(s, e))
  {
    match e
    case PostDone(p, reply) => PostLife(s, p, reply, c);
    case StreamOpen(h) => OpenLife(s, h, c);
    case StreamMessage(h) => MessageLife(s, h, c);
    case StreamError(h) => ErrorLife(s, h, c);
    case TimerFires(t) => TimerLife(s, t, c);
  }

  /** Every event but its disconnection moves a live connection as the small machine says, whatever it does to others:
      its stream, its flags, its retry and its session requests. */
  lemma LifeRefines(s: State, e: Event, c: ServerConnection)
    requires Inv(s) && Enabled(s, e) && Current(s, c) && e != DisconnectServer(s.conns[c].serverId)
    ensures Lives(s, Happens(s, e, c), c, Step(s, e))
  {
    if !Concerns(s, e, c) {
      OthersLeave(s, e, c);
      UnmovedLives(s, c, Step(s, e));
      UnconcernedNothing(s, e, c);
    } else if Asks(s, e, c) {
      CallLife(s, e, c);
    } else {
      CallbackLife(s, e, c);
    }
  }

  // ---- A new connection ----

  /** The event that made c, and what it was made from. */
  predicate Makes(s: State, e: Event, c: ServerConnection, id: string, url: string) {
    match e
    case ConnectServer(x, _, made) => made == Some(c) && id == x && id in s.servers && url == s.servers[id].url
    case AuthDone(x, _, made) =>
      made == Some(c) && id == x && id in s.inFlight && s.inFlight[id] == Authenticating(url)
    case ConnectLocal(u, made) => made == Some(c) && id == LOCAL_SERVER_ID && url == u
    case _ => false
  }

  /** A record as it is made: nothing received, nothing held, and connecting only with a request under way. */
  ghost predicate Born(r: State, c: ServerConnection, id: string, url: string) {
    && Current(r, c) && r.conns[c].serverId == id && r.conns[c].serverUrl == url
    && r.conns[c].source.None? && r.conns[c].timer.None? && r.conns[c].session.None? && r.conns[c].allow
    && r.conns[c].attempts == 0 && (r.conns[c].connecting <==> Waiting(r.posts, c) != {})
  }

  lemma CreateBorn(s: State, id: string, url: string, c: ServerConnection)
    requires Inv(s) && c !in s.conns && id !in s.connections
    ensures Born(CreateConnection(s, id, url, c), c, id, url)
  {
    var s1 := Insert(s, id, url, c);
    assert forall p :: p in s.posts ==> s.posts[p] != c;
    assert Waiting(s1.posts, c) == {};
    ConnectLife(s1, c);
    ConnectKeepsSession(s1, c);
    OneMore(s1.posts, s1.next, c);
    assert CreateConnection(s, id, url, c) == ConnectRealtime(s1, c);
  }

  /** What asking to connect leaves alone. */
  lemma ConnectKeepsSession(s: State, c: ServerConnection)
    requires Current(s, c)
    ensures var v, w := s.conns[c], ConnectRealtime(s, c).conns[c];
            && Current(ConnectRealtime(s, c), c) && w.session == v.session && w.serverId == v.serverId
            && w.serverUrl == v.serverUrl && w.attempts == v.attempts && (v.allow ==> w.allow)
  {
    var s1 := CloseSource(s, c);
    if Current(s1, c) && !Busy(s1.conns[c]) && HasToken(s1, s1.conns[c].serverId) && !Covered(s1, c) {
      assert ConnectRealtime(s, c) == StartSession(ClearTimer(s1, c), c);
    }
  }

  lemma SameBorn(m: State, r: State, c: ServerConnection, id: string, url: string)
    requires Born(m, c, id, url) && r.conns == m.conns && r.posts == m.posts && r.connections == m.connections
    ensures Born(r, c, id, url)
  {
  }

  lemma BornByServer(s: State, e: Event, c: ServerConnection)
    requires Inv(s) && Enabled(s, e) && e.ConnectServer? && c !in s.conns && c in Step(s, e).conns
    ensures e.id in s.servers && Makes(s, e, c, e.id, s.servers[e.id].url)
    ensures Born(Step(s, e), c, e.id, s.servers[e.id].url)
  {
    ServerRecords(s, e.id, e.canUseChallengeAuth, e.made);
    if e.id !in s.inFlight {
      if e.id in s.connections {
        RejoinKeys(s, e.id);
      } else {
        CreatedRecord(s, e.id, s.servers[e.id].url, e.made.value);
        CreateBorn(s, e.id, s.servers[e.id].url, c);
        SameBorn(CreateConnection(s, e.id, s.servers[e.id].url, c), Step(s, e), c, e.id, s.servers[e.id].url);
      }
    }
  }

  lemma AuthCreates(s: State, s1: State, id: string, made: Option<ServerConnection>)
    requires id in s.inFlight && s.inFlight[id].Authenticating? && made.Some?
    requires s1 == s.(inFlight := s.inFlight[id := Settled], localToken := true, servers := s1.servers)
    requires s1.servers == if id in s.servers then s.servers[id := s.servers[id].(token := true)] else s.servers
    ensures DoAuthDone(s, id, true, made) == CreateConnection(s1, id, s.inFlight[id].url, made.value)
  {
  }

  lemma CreateIsBirth(s: State, id: string, url: string, made: ServerConnection, c: ServerConnection)
    requires Inv(s) && made !in s.conns && id !in s.connections && (id in s.inFlight ==> s.inFlight[id].Settled?)
    requires c !in s.conns && c in CreateConnection(s, id, url, made).conns
    ensures c == made && Born(CreateConnection(s, id, url, made), c, id, url)
  {
    CreatedRecord(s, id, url, made);
    CreateBorn(s, id, url, made);
  }

  lemma AuthBirth(s: State, s1: State, id: string, made: Option<ServerConnection>, c: ServerConnection)
    requires Inv(s) && New(s, made) && id in s.inFlight && s.inFlight[id].Authenticating? && made.Some?
    requires s1 == s.(inFlight := s.inFlight[id := Settled], localToken := true, servers := s1.servers)
    requires s1.servers == if id in s.servers then s.servers[id := s.servers[id].(token := true)] else s.servers
    requires c !in s.conns && c in DoAuthDone(s, id, true, made).conns
    ensures made == Some(c) && Born(DoAuthDone(s, id, true, made), c, id, s.inFlight[id].url)
  {
    OutsideKeeps(s, s1);
    AuthCreates(s, s1, id, made);
    CreateIsBirth(s1, id, s.inFlight[id].url, made.value, c);
  }

  lemma BornByAuth(s: State, id: string, ok: bool, made: Option<ServerConnection>, c: ServerConnection)
    requires Inv(s) && New(s, made) && id in s.inFlight && s.inFlight[id].Authenticating? && (made.Some? <==> ok)
    requires c !in s.conns && c in DoAuthDone(s, id, ok, made).conns
    ensures made == Some(c) && Born(DoAuthDone(s, id, ok, made), c, id, s.inFlight[id].url)
  {
    if ok {
      var servers := if id in s.servers then s.servers[id := s.servers[id].(token := true)] else s.servers;
      AuthBirth(s, s.(inFlight := s.inFlight[id := Settled], localToken := true, servers := servers), id, made, c);
    }
  }

  lemma BornByLocal(s: State, e: Event, c: ServerConnection)
    requires Inv(s) && Enabled(s, e) && e.ConnectLocal? && c !in s.conns && c in Step(s, e).conns
    ensures Makes(s, e, c, LOCAL_SERVER_ID, e.url) && Born(Step(s, e), c, LOCAL_SERVER_ID, e.url)
  {
    var id := LOCAL_SERVER_ID;
    if id in s.inFlight || !s.localToken {
    } else if id in s.connections {
      RejoinKeys(s, id);
    } else {
      CreatedRecord(s, id, e.url, e.made.value);
      CreateBorn(s, id, e.url, c);
      SameBorn(CreateConnection(s, id, e.url, c), Step(s, e), c, id, e.url);
    }
  }

  /** Every new record comes from one of the three calls, stands for the server it was made for under the URL that was
      listed for it, and has nothing attached but, perhaps, its session request. */
  lemma NewIsBorn(s: State, e: Event, c: ServerConnection)
    requires Inv(s) && Enabled(s, e) && c !in s.conns && c in Step(s, e).conns
    ensures exists id, url :: Makes(s, e, c, id, url) && Born(Step(s, e), c, id, url)
  {
    match e
    case ConnectServer(_, _, _) => BornByServer(s, e, c);
    case AuthDone(id, ok, made) =>
      BornByAuth(s, id, ok, made, c);
      assert Makes(s, e, c, id, s.inFlight[id].url);
    case ConnectLocal(_, _) => BornByLocal(s, e, c);
    case _ => NoNewRecord(s, e, c);
  }

  // ---- The phases of a stream, over every run ----

  /** The browser has reported the opening of stream h since it was made. */
  ghost predicate HasOpened(events: seq<Event>, h: Handle)
    decreases |events|
  {
    events != [] &&
    (var init, e := events[..|events| - 1], events[|events| - 1];
     HasOpened(init, h) || (e == StreamOpen(h) && h in Run(Init, init).streams))
  }

  ghost predicate PhaseOk(s: State, c: ServerConnection, h: Handle, isOpen: bool) {
    && (c in s.conns && s.conns[c].source == Some(h) ==>
          (s.conns[c].connecting <==> !isOpen) && (isOpen ==> s.conns[c].connected))
    && (isOpen ==> h in s.streams)
  }

  lemma OpenedIs(s: State, e: Event, c: ServerConnection)
    ensures Happens(s, e, c).Opened? <==> e.StreamOpen? && Holds(s, e.h, c)
  {
  }

  lemma OpensIff(s: State, e: Event, c: ServerConnection, h: Handle)
    requires Inv(s) && Current(s, c) && s.conns[c].source == Some(h)
    ensures h in s.streams && (Happens(s, e, c).Opened? <==> e == StreamOpen(h))
  {
    assert h in s.streams && s.streams[h].conn == c;
    OpenedIs(s, e, c);
  }

  lemma LifePhase(s: State, what: Happening, c: ServerConnection, r: State, h: Handle, isOpen: bool)
    requires Inv(s) && Current(s, c) && PhaseOk(s, c, h, isOpen) && Lives(s, what, c, r) && r.conns[c].source == Some(h)
    requires what.Answered? ==> s.conns[c].connecting
    ensures var now := isOpen || (what.Opened? && s.conns[c].source == Some(h));
            (r.conns[c].connecting <==> !now) && (now ==> r.conns[c].connected)
    ensures s.conns[c].source == Some(h) || (what.Answered? && h == s.next && h !in s.streams)
  {
  }

  lemma AnsweredIs(s: State, e: Event, c: ServerConnection)
    requires Happens(s, e, c).Answered?
    ensures e.PostDone? && e.post in s.posts && s.posts[e.post] == c && e.reply.SessionOk?
  {
  }

  lemma AnswerFinds(s: State, p: Handle, c: ServerConnection)
    requires Inv(s) && Current(s, c) && p in s.posts && s.posts[p] == c
    ensures s.conns[c].connecting && Waiting(s.posts, c) != {}
  {
    assert p in Waiting(s.posts, c);
  }

  lemma AnsweredConnects(s: State, e: Event, c: ServerConnection)
    requires Inv(s) && Current(s, c) && Happens(s, e, c).Answered?
    ensures s.conns[c].connecting
  {
    AnsweredIs(s, e, c);
    AnswerFinds(s, e.post, c);
  }

  lemma OwnPhase(s: State, e: Event, c: ServerConnection, h: Handle, isOpen: bool)
    requires Inv(s) && Enabled(s, e) && Current(s, c) && e != DisconnectServer(s.conns[c].serverId)
    requires PhaseOk(s, c, h, isOpen) && c in Step(s, e).conns && Step(s, e).conns[c].source == Some(h)
    ensures var now := isOpen || (e == StreamOpen(h) && h in s.streams); var w := Step(s, e).conns[c];
            (w.connecting <==> !now) && (now ==> w.connected)
  {
    if Happens(s, e, c).Answered? { AnsweredConnects(s, e, c); }
    if s.conns[c].source == Some(h) { OpensIff(s, e, c, h); }
    LifeRefines(s, e, c);
    LifePhase(s, Happens(s, e, c), c, Step(s, e), h, isOpen);
  }

  lemma StepPhase(s: State, e: Event, c: ServerConnection, h: Handle, isOpen: bool)
    requires Inv(s) && PhaseOk(s, c, h, isOpen)
    ensures PhaseOk(Step(s, e), c, h, isOpen || (e == StreamOpen(h) && h in s.streams))
  {
    if Enabled(s, e) {
      var r := Step(s, e);
      StreamsStay(s, e);
      StepKeeps(s, e);
      if c in r.conns && r.conns[c].source == Some(h) {
        HolderWasThere(s, e, c);
        OwnPhase(s, e, c, h, isOpen);
      }
    }
  }

  /** Whoever holds a stream after an event was live before it and was not disconnected. */
  lemma HolderWasThere(s: State, e: Event, c: ServerConnection)
    requires Inv(s) && Enabled(s, e) && c in Step(s, e).conns && Step(s, e).conns[c].source.Some?
    ensures Current(s, c) && e != DisconnectServer(s.conns[c].serverId)
  {
    StepKeeps(s, e);
    if c !in s.conns {
      NewIsBorn(s, e, c);
    } else if !Current(s, c) {
      RetiredForGood(s, e, c);
    } else if e == DisconnectServer(s.conns[c].serverId) {
      DisconnectStops(s, c);
    }
  }

  lemma {:induction false} RunPhase(events: seq<Event>, c: ServerConnection, h: Handle)
    ensures PhaseOk(Run(Init, events), c, h, HasOpened(events, h))
    decreases |events|
  {
    if events != [] {
      var init := events[..|events| - 1];
      RunPhase(init, c, h);
      EveryRunKeeps(init);
      StepPhase(Run(Init, init), events[|events| - 1], c, h, HasOpened(init, h));
    }
  }

  /** In every run, whoever holds a stream is connecting until the stream has opened, and connected from then on. */
  lemma StreamPhase(events: seq<Event>, c: ServerConnection, h: Handle)
    requires c in Run(Init, events).conns && Run(Init, events).conns[c].source == Some(h)
    ensures Run(Init, events).conns[c].connecting <==> !HasOpened(events, h)
    ensures HasOpened(events, h) ==> Run(Init, events).conns[c].connected
  {
    RunPhase(events, c, h);
  }

  // ---- Connecting without a stream ----

  /** The event is a call that asks c to connect while it holds a stream that has not opened. */
  ghost predicate Interrupts(before: seq<Event>, e: Event, c: ServerConnection) {
    var s := Run(Init, before);
    Enabled(s, e) && c in s.conns && Asks(s, e, c) && s.conns[c].source.Some?
    && !HasOpened(before, s.conns[c].source.value)
  }

  ghost predicate WasInterrupted(events: seq<Event>, c: ServerConnection)
    decreases |events|
  {
    events != [] &&
    (WasInterrupted(events[..|events| - 1], c) || Interrupts(events[..|events| - 1], events[|events| - 1], c))
  }

  /** Nothing is behind the flag. */
  ghost predicate Idle(s: State, c: ServerConnection)
    requires c in s.conns
  {
    s.conns[c].connecting && s.conns[c].source.None? && Waiting(s.posts, c) == {}
  }

  /** A request is pending only for a connection that is connecting and holds no stream. */
  lemma WaiterConnects(s: State, c: ServerConnection)
    requires Inv(s) && Current(s, c) && Waiting(s.posts, c) != {}
    ensures s.conns[c].connecting && s.conns[c].source.None?
  {
    var p :| p in Waiting(s.posts, c);
    assert p in s.posts && s.posts[p] == c;
  }

  lemma LifeIdle(s: State, what: Happening, c: ServerConnection, r: State)
    requires Inv(s) && Current(s, c) && Lives(s, what, c, r)
    requires what == Called(true) ==> !s.conns[c].connecting
    requires what.Answered? || what.Failed? || what.Opened? ==> !Idle(s, c)
    ensures Idle(r, c) <==> Idle(s, c) || (what == Called(false) && s.conns[c].source.Some? && s.conns[c].connecting)
  {
    if Waiting(s.posts, c) != {} { WaiterConnects(s, c); }
  }

  /** An idle connection has no callback to come, and only a connection that is not connecting has a timer. */
  lemma IdleHears(s: State, e: Event, c: ServerConnection)
    requires Inv(s) && Enabled(s, e) && Current(s, c)
    ensures var what := Happens(s, e, c);
            && (what == Called(true) ==> !s.conns[c].connecting)
            && (what.Answered? || what.Failed? || what.Opened? ==> !Idle(s, c))
            && (what == Called(false) <==> Asks(s, e, c))
  {
    if e.PostDone? && s.posts[e.post] == c { AnswerFinds(s, e.post, c); }
  }

  lemma IdleStep(s: State, e: Event, c: ServerConnection)
    requires Inv(s) && Enabled(s, e) && Current(s, c) && e != DisconnectServer(s.conns[c].serverId)
    ensures c in Step(s, e).conns
    ensures Idle(Step(s, e), c)
            <==> Idle(s, c) || (Asks(s, e, c) && s.conns[c].source.Some? && s.conns[c].connecting)
  {
    LifeRefines(s, e, c);
    IdleHears(s, e, c);
    LifeIdle(s, Happens(s, e, c), c, Step(s, e));
  }

  ghost predicate IdleOk(s: State, c: ServerConnection, was: bool) {
    (Current(s, c) ==> (Idle(s, c) <==> was)) && (c !in s.conns ==> !was)
  }

  lemma LiveIdle(before: seq<Event>, e: Event, c: ServerConnection, was: bool)
    requires Enabled(Run(Init, before), e) && Current(Run(Init, before), c) && IdleOk(Run(Init, before), c, was)
    requires e != DisconnectServer(Run(Init, before).conns[c].serverId)
    ensures IdleOk(Step(Run(Init, before), e), c, was || Interrupts(before, e, c))
  {
    var s := Run(Init, before);
    EveryRunKeeps(before);
    IdleStep(s, e, c);
    if s.conns[c].source.Some? { StreamPhase(before, c, s.conns[c].source.value); }
  }

  lemma StepIdle(before: seq<Event>, e: Event, c: ServerConnection, was: bool)
    requires Enabled(Run(Init, before), e) && IdleOk(Run(Init, before), c, was)
    ensures IdleOk(Step(Run(Init, before), e), c, was || Interrupts(before, e, c))
  {
    var s := Run(Init, before);
    EveryRunKeeps(before);
    if c !in s.conns {
      if c in Step(s, e).conns { NewIsBorn(s, e, c); }
    } else if !Current(s, c) {
      RetiredForGood(s, e, c);
    } else if e == DisconnectServer(s.conns[c].serverId) {
      DisconnectStops(s, c);
    } else {
      LiveIdle(before, e, c, was);
    }
  }

  lemma {:induction false} IdleIff(events: seq<Event>, c: ServerConnection)
    ensures IdleOk(Run(Init, events), c, WasInterrupted(events, c))
    decreases |events|
  {
    if events != [] {
      var init, e := events[..|events| - 1], events[|events| - 1];
      IdleIff(init, c);
      if Enabled(Run(Init, init), e) { StepIdle(init, e, c, WasInterrupted(init, c)); }
    }
  }

  /** In every run a live connection without a stream is connecting iff a session request of its waits for the answer,
      or a call once asked it to connect while its stream was opening. */
  lemma ConnectingIff(events: seq<Event>, c: ServerConnection)
    requires Current(Run(Init, events), c) && Run(Init, events).conns[c].source.None?
    ensures var s := Run(Init, events);
            s.conns[c].connecting <==> (exists p :: p in s.posts && s.posts[p] == c) || WasInterrupted(events, c)
  {
    var s := Run(Init, events);
    EveryRunKeeps(events);
    IdleIff(events, c);
    if exists p :: p in s.posts && s.posts[p] == c {
      var p :| p in s.posts && s.posts[p] == c;
      assert p in Waiting(s.posts, c);
    }
    if Waiting(s.posts, c) != {} {
      var p :| p in Waiting(s.posts, c);
      assert p in s.posts && s.posts[p] == c;
    }
  }
}
