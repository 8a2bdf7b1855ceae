/**
 When a live connection keeps trying, over runs that go offline and come back.  Coming back online is one turn of the
 event loop with several steps: the handler clears `offline` and asks every listed server to connect before it awaits
 anything (lines 57-60, 940-957).
 */
module RealtimeOnline {
  import opened Options
  import opened RealtimeModel
  import opened RealtimeSafety
  import opened RealtimeLiveness
  import opened RealtimeRetry

  /** c is live and keeps trying. */
  predicate Alive(s: State, c: ServerConnection) {
    Current(s, c) && Trying(s.conns[c])
  }

  // ---- What stops a connection that tries ----

  /** The stream or the session request of c fails, or its stream tells it to reconnect. */
  predicate Drops(s: State, e: Event, c: ServerConnection) {
    match e
    case StreamError(h) => Holds(s, h, c)
    case StreamMessage(h) =>
      Holds(s, h, c) && NextEntry(s, h).Some?
      && (NextEntry(s, h).value.op.Reconnect? || NextEntry(s, h).value.op.InvalidSession?)
    case PostDone(p, reply) => p in s.posts && s.posts[p] == c && !reply.SessionOk?
    case _ => false
  }

  /** It is disconnected, or fails while offline with no retry pending, or its retry finds no token. */
  predicate Stops(s: State, e: Event, c: ServerConnection)
    requires c in s.conns
  {
    || e == DisconnectServer(s.conns[c].serverId)
    || (s.offline && s.conns[c].timer.None? && Drops(s, e, c))
    || (e.TimerFires? && e.t in s.timers && s.timers[e.t].conn == c
        && !s.conns[c].connected && !HasToken(s, s.conns[c].serverId))
  }

  lemma ReconnectTriesIff(s: State, c: ServerConnection)
    requires Current(s, c) && s.conns[c].allow && !s.conns[c].connected && !s.conns[c].connecting
    ensures Alive(ReconnectGateway(s, c), c) <==> !s.offline || s.conns[c].timer.Some?
    ensures ReconnectGateway(s, c).connections == s.connections
  {
  }

  lemma DropTriesIff(s: State, c: ServerConnection)
    requires Current(s, c) && s.conns[c].allow
    ensures Alive(DropAndRetry(s, c), c) <==> !s.offline || s.conns[c].timer.Some?
  {
    var s1 := CloseSource(s, c);
    ReconnectTriesIff(Put(s1, c, s1.conns[c].(connected := false, connecting := false)), c);
  }

  lemma LostTriesIff(s: State, c: ServerConnection)
    requires Current(s, c) && s.conns[c].allow
    ensures Alive(SessionLost(s, c), c) <==> !s.offline || s.conns[c].timer.Some?
  {
    ReconnectTriesIff(Put(s, c, s.conns[c].(connecting := false, connected := false)), c);
  }

  lemma PostStopsIff(s: State, p: Handle, reply: Reply)
    requires Inv(s) && p in s.posts && Current(s, s.posts[p])
    ensures var c := s.posts[p];
            Alive(DoPostDone(s, p, reply), c) <==> !(s.offline && s.conns[c].timer.None? && !reply.SessionOk?)
  {
    var c := s.posts[p];
    var s0 := s.(posts := s.posts - {p});
    assert s0.conns[c].connecting && s0.conns[c].allow && Current(s0, c);
    match reply
    case SessionOk(_, _) =>
    case OpenFailed(session, cursor) => LostTriesIff(Put(s0, c, AdoptSession(s0.conns[c], session, cursor)), c);
    case SessionFailed => LostTriesIff(s0, c);
  }

  lemma MessageStopsIff(s: State, h: Handle)
    requires Inv(s) && h in s.streams && Alive(s, s.streams[h].conn)
    ensures var c := s.streams[h].conn;
            Alive(DoStreamMessage(s, h), c)
            <==> !(s.offline && s.conns[c].timer.None? && Drops(s, StreamMessage(h), c))
  {
    var c := s.streams[h].conn;
    if Holds(s, h, c) && NextEntry(s, h).Some? {
      HandledStopsIff(Received(s, h, NextEntry(s, h).value), c, NextEntry(s, h).value.op);
    }
  }

  lemma HandledStopsIff(s: State, c: ServerConnection, op: Op)
    requires Alive(s, c) && s.conns[c].allow
    ensures Alive(HandlePayload(s, c, op), c)
            <==> !(s.offline && s.conns[c].timer.None? && (op.Reconnect? || op.InvalidSession?))
  {
    match op
    case Reconnect => DropTriesIff(s, c);
    case InvalidSession => DropTriesIff(Put(s, c, s.conns[c].(session := None)), c);
    case _ =>
  }

  /** Asking to connect leaves a connection trying iff it was trying or has a token. */
  lemma ConnectTriesIff(s: State, c: ServerConnection)
    requires Current(s, c)
    ensures Alive(ConnectRealtime(s, c), c) <==> Trying(s.conns[c]) || HasToken(s, s.conns[c].serverId)
    ensures ConnectRealtime(s, c).connections == s.connections
  {
    SseTriesIff(CloseSource(s, c), c);
  }

  lemma SseTriesIff(s: State, c: ServerConnection)
    requires Current(s, c) && s.conns[c].source.None?
    ensures Alive(ConnectRealtimeSse(s, c), c) <==> Trying(s.conns[c]) || HasToken(s, s.conns[c].serverId)
    ensures ConnectRealtimeSse(s, c).connections == s.connections
  {
    if !s.conns[c].connecting && HasToken(s, s.conns[c].serverId) && !Covered(s, c) {
      StartTries(s, c);
    }
  }

  lemma StartTries(s: State, c: ServerConnection)
    requires Current(s, c)
    ensures var r := StartSession(ClearTimer(s, c), c); Alive(r, c) && r.connections == s.connections
  {
  }

  lemma TimerStopsIff(s: State, t: Handle)
    requires Inv(s) && t in s.timers && Current(s, s.timers[t].conn)
    ensures var c := s.timers[t].conn;
            Alive(DoTimerFires(s, t), c) <==> s.conns[c].connected || HasToken(s, s.conns[c].serverId)
  {
    var c := s.timers[t].conn;
    assert s.conns[c].timer == Some(t) && !s.conns[c].connecting && s.conns[c].allow;
    ConnectTriesIff(Put(s, c, s.conns[c].(timer := None)).(timers := s.timers - {t}), c);
  }

  lemma ErrorStopsIff(s: State, h: Handle)
    requires Inv(s) && h in s.streams && Alive(s, s.streams[h].conn)
    ensures var c := s.streams[h].conn;
            Alive(DoStreamError(s, h), c) <==> !(s.offline && s.conns[c].timer.None? && Holds(s, h, c))
  {
    if Holds(s, h, s.streams[h].conn) { DropTriesIff(s, s.streams[h].conn); }
  }

  lemma OpenKeepsTrying(s: State, h: Handle)
    requires Inv(s) && h in s.streams && Alive(s, s.streams[h].conn)
    ensures Alive(DoStreamOpen(s, h), s.streams[h].conn)
  {
  }

  lemma CallbackStopsIff(s: State, e: Event, c: ServerConnection)
    requires Inv(s) && Enabled(s, e) && Alive(s, c) && BelongsTo(s, e, c)
    ensures Alive(Step(s, e), c) <==> !Stops(s, e, c)
  {
    match e
    case PostDone(p, reply) => PostStopsIff(s, p, reply);
    case StreamOpen(h) => OpenKeepsTrying(s, h);
    case StreamMessage(h) => MessageStopsIff(s, h);
    case StreamError(h) => ErrorStopsIff(s, h);
    case TimerFires(t) => TimerStopsIff(s, t);
  }

  /** An event that asks the live connection c to connect. */
  predicate Asks(s: State, e: Event, c: ServerConnection) {
    Reconnects(e) && Concerns(s, e, c)
  }

  lemma AskedIff(s: State, e: Event, c: ServerConnection)
    requires Inv(s) && Enabled(s, e) && Current(s, c) && Asks(s, e, c)
    ensures Alive(Step(s, e), c) <==> Trying(s.conns[c]) || HasToken(s, s.conns[c].serverId)
  {
    var id := s.conns[c].serverId;
    ConnectTriesIff(Put(s, c, s.conns[c].(allow := true)), c);
    assert Step(s, e).conns == Rejoin(s, id).conns && Step(s, e).connections == Rejoin(s, id).connections;
  }

  lemma UnconcernedAlive(s: State, e: Event, c: ServerConnection)
    requires Inv(s) && Enabled(s, e) && Current(s, c) && !Concerns(s, e, c)
    requires e != DisconnectServer(s.conns[c].serverId)
    ensures Alive(Step(s, e), c) <==> Trying(s.conns[c])
  {
    OthersLeave(s, e, c);
    StillLive(s, e, c);
  }

  lemma DisconnectStops(s: State, c: ServerConnection)
    requires Inv(s) && Current(s, c)
    ensures !Current(DoDisconnect(s, s.conns[c].serverId), c)
  {
    assert DoDisconnect(s, s.conns[c].serverId).conns[c].serverId == s.conns[c].serverId;
  }

  /** Exactly what makes a trying connection stop: a disconnect, a failure while offline with no retry pending, or a
      retry that finds no token. */
  lemma StopsTryingIff(s: State, e: Event, c: ServerConnection)
    requires Inv(s) && Enabled(s, e) && Alive(s, c)
    ensures !Alive(Step(s, e), c) <==> Stops(s, e, c)
  {
    if e == DisconnectServer(s.conns[c].serverId) {
      DisconnectStops(s, c);
    } else if !Concerns(s, e, c) {
      UnconcernedAlive(s, e, c);
      UnconcernedGoesOn(s, e, c);
    } else if Asks(s, e, c) {
      AskedIff(s, e, c);
    } else {
      CallbackStopsIff(s, e, c);
    }
  }

  lemma UnconcernedGoesOn(s: State, e: Event, c: ServerConnection)
    requires Inv(s) && Current(s, c) && !Concerns(s, e, c) && e != DisconnectServer(s.conns[c].serverId)
    ensures !Stops(s, e, c)
  {
  }

  /** Exactly what makes a live connection try that does not: being asked to connect, with a token. */
  lemma StartsTryingIff(s: State, e: Event, c: ServerConnection)
    requires Inv(s) && RetryOk(s) && Enabled(s, e) && Current(s, c) && !Trying(s.conns[c])
    ensures Alive(Step(s, e), c) <==> Asks(s, e, c) && HasToken(s, s.conns[c].serverId)
  {
    if e == DisconnectServer(s.conns[c].serverId) {
      DisconnectStops(s, c);
    } else if !Concerns(s, e, c) {
      UnconcernedAlive(s, e, c);
    } else if Asks(s, e, c) {
      AskedIff(s, e, c);
    } else {
      NothingToCall(s, e, c);
    }
  }

  /** A live connection that does not try has no request, stream or timer whose callback could change it. */
  lemma NothingToCall(s: State, e: Event, c: ServerConnection)
    requires Inv(s) && RetryOk(s) && Enabled(s, e) && Current(s, c) && !Trying(s.conns[c]) && BelongsTo(s, e, c)
    ensures c in Step(s, e).conns && Step(s, e).conns[c] == s.conns[c]
  {
    assert RecordOk(s.conns[c], s.timers);
  }

  // ---- Turns ----

  /** One call of connectServer by the online handler: whether the account can answer a challenge, and the object
      made. */
  datatype Join = Join(id: string, can: bool, made: Option<ServerConnection>)

  /** A turn of the event loop: one step, or the online handler up to its first await.  With an empty server list the
      handler asks the local connection to connect in the same turn. */
  datatype Turn =
    | Single(event: Event)
    | Online(joins: seq<Join>, url: string, local: Option<ServerConnection>)

  function Ask(j: Join): Event { ConnectServer(j.id, j.can, j.made) }

  function ConnectEach(s: State, joins: seq<Join>): State
    decreases |joins|
  {
    if joins == [] then s else ConnectEach(Step(s, Ask(joins[0])), joins[1..])
  }

  function AfterTurn(s: State, t: Turn): State {
    match t
    case Single(e) => Step(s, e)
    case Online(joins, url, local) =>
      var r := ConnectEach(Step(s, GoOnline), joins);
      if joins == [] && r.localToken then Step(r, ConnectLocal(url, local)) else r
  }

  predicate EachEnabled(s: State, joins: seq<Join>)
    decreases |joins|
  {
    joins == [] || (Enabled(s, Ask(joins[0])) && EachEnabled(Step(s, Ask(joins[0])), joins[1..]))
  }

  /** Each listed server once, in any order. */
  ghost predicate ListsAll(servers: map<string, Server>, joins: seq<Join>) {
    && (forall id :: id in servers ==> Asked(joins, id))
    && (forall k :: 0 <= k < |joins| ==> joins[k].id in servers)
    && (forall i, k :: 0 <= i < k < |joins| ==> joins[i].id != joins[k].id)
  }

  ghost predicate Asked(joins: seq<Join>, id: string) {
    exists k :: 0 <= k < |joins| && joins[k].id == id
  }

  /** The turns that can happen.  A turn starts with no microtask left, so no finished task is still in the map of those
      that are connecting when the browser comes back online. */
  ghost predicate CanTurn(s: State, t: Turn) {
    match t
    case Single(e) => Enabled(s, e) && !e.GoOnline?
    case Online(joins, url, local) =>
      var s1 := Step(s, GoOnline);
      && ListsAll(s.servers, joins) && EachEnabled(s1, joins)
      && (forall id :: id in s.inFlight ==> s.inFlight[id].Authenticating?)
      && (joins == [] && s.localToken ==> Enabled(s1, ConnectLocal(url, local)))
  }

  function TurnRun(turns: seq<Turn>): State {
    if turns == [] then Init else AfterTurn(TurnRun(turns[..|turns| - 1]), turns[|turns| - 1])
  }

  /** If id is live its token is there. */
  predicate Held(s: State, id: string) {
    id in s.connections ==> HasToken(s, id)
  }

  /** Every turn can happen, and after each id has its token if it is live; others may lack theirs. */
  ghost predicate Supplied(turns: seq<Turn>, id: string) {
    turns == [] ||
    (Supplied(turns[..|turns| - 1], id) && CanTurn(TurnRun(turns[..|turns| - 1]), turns[|turns| - 1])
     && Held(TurnRun(turns), id))
  }

  // ---- A run of turns is a run of events ----

  function AskAll(joins: seq<Join>): (r: seq<Event>)
    ensures |r| == |joins| && forall k :: 0 <= k < |joins| ==> r[k] == Ask(joins[k])
  {
    seq(|joins|, k requires 0 <= k < |joins| => Ask(joins[k]))
  }

  function EventsOf(s: State, t: Turn): seq<Event> {
    match t
    case Single(e) => [e]
    case Online(joins, url, local) =>
      [GoOnline] + AskAll(joins)
      + if joins == [] && s.localToken then [ConnectLocal(url, local)] else []
  }

  function Events(turns: seq<Turn>): seq<Event> {
    if turns == [] then []
    else Events(turns[..|turns| - 1]) + EventsOf(TurnRun(turns[..|turns| - 1]), turns[|turns| - 1])
  }

  lemma {:induction false} RunSplit(s: State, a: seq<Event>, b: seq<Event>)
    ensures Run(s, a + b) == Run(Run(s, a), b)
    decreases |b|
  {
    if b == [] {
      assert a + b == a;
    } else {
      assert (a + b)[..|a + b| - 1] == a + b[..|b| - 1];
      RunSplit(s, a, b[..|b| - 1]);
    }
  }

  lemma RunOne(s: State, e: Event)
    ensures Run(s, [e]) == Step(s, e)
  {
    assert [e][..0] == [];
    assert Run(s, []) == s;
  }

  lemma {:induction false} EachIsRun(s: State, joins: seq<Join>)
    ensures ConnectEach(s, joins) == Run(s, AskAll(joins))
    decreases |joins|
  {
    if joins == [] {
      assert AskAll(joins) == [];
    } else {
      EachIsRun(Step(s, Ask(joins[0])), joins[1..]);
      assert AskAll(joins) == [Ask(joins[0])] + AskAll(joins[1..]);
      RunSplit(s, [Ask(joins[0])], AskAll(joins[1..]));
      RunOne(s, Ask(joins[0]));
    }
  }

  lemma OnlineIsRun(s: State, joins: seq<Join>)
    ensures Run(s, [GoOnline] + AskAll(joins)) == ConnectEach(Step(s, GoOnline), joins)
  {
    EachIsRun(Step(s, GoOnline), joins);
    RunOne(s, GoOnline);
    RunSplit(s, [GoOnline], AskAll(joins));
  }

  lemma TurnIsRun(s: State, t: Turn)
    requires Inv(s)
    ensures AfterTurn(s, t) == Run(s, EventsOf(s, t))
  {
    match t
    case Single(e) => RunOne(s, e);
    case Online(joins, url, local) =>
      OnlineIsRun(s, joins);
      if joins == [] && s.localToken {
        LocalInTurn(s, url, local);
      } else {
        assert [GoOnline] + AskAll(joins) + [] == [GoOnline] + AskAll(joins);
        StepKeeps(s, GoOnline);
        EachKeepsWorld(Step(s, GoOnline), joins);
      }
  }

  lemma LocalInTurn(s: State, url: string, local: Option<ServerConnection>)
    ensures Run(s, [GoOnline] + [] + [ConnectLocal(url, local)]) == Step(Step(s, GoOnline), ConnectLocal(url, local))
  {
    assert [GoOnline] + [] == [GoOnline];
    RunSplit(s, [GoOnline], [ConnectLocal(url, local)]);
    RunOne(s, GoOnline);
    RunOne(Step(s, GoOnline), ConnectLocal(url, local));
  }

  /** So everything that holds after every run of events holds after every run of turns. */
  lemma {:induction false} TurnsAreRuns(turns: seq<Turn>)
    ensures TurnRun(turns) == Run(Init, Events(turns))
    decreases |turns|
  {
    if turns != [] {
      var init := turns[..|turns| - 1];
      TurnsAreRuns(init);
      EveryRunKeeps(Events(init));
      TurnIsRun(TurnRun(init), turns[|turns| - 1]);
      RunSplit(Init, Events(init), EventsOf(TurnRun(init), turns[|turns| - 1]));
    }
  }

  // ---- Asking leaves tokens and the offline flag alone ----

  ghost predicate SameWorld(s: State, r: State) {
    r.offline == s.offline && r.servers == s.servers && r.localToken == s.localToken
  }

  /** Nor is any task touched. */
  ghost predicate SameAround(s: State, r: State) {
    SameWorld(s, r) && r.inFlight == s.inFlight
  }

  lemma ConnectKeepsWorld(s: State, c: ServerConnection)
    requires c in s.conns
    ensures SameAround(s, ConnectRealtime(s, c))
  {
    var s1 := CloseSource(s, c);
    assert SameAround(s, s1);
    if !Current(s1, c) || Busy(s1.conns[c]) || !HasToken(s1, s1.conns[c].serverId) {
      assert ConnectRealtime(s, c) == s1;
    } else if Covered(s1, c) {
      assert ConnectRealtime(s, c) == Put(s1, c, s1.conns[c].(connected := true, connecting := false));
    } else {
      assert ConnectRealtime(s, c) == StartSession(ClearTimer(s1, c), c);
    }
  }

  lemma RejoinWorld(s: State, id: string)
    requires id in s.connections && s.connections[id] in s.conns
    ensures SameWorld(s, Rejoin(s, id))
  {
    var c := s.connections[id];
    ConnectKeepsWorld(Put(s, c, s.conns[c].(allow := true)), c);
  }

  lemma CreateWorld(s: State, id: string, url: string, made: ServerConnection)
    ensures SameWorld(s, CreateConnection(s, id, url, made))
  {
    ConnectKeepsWorld(Insert(s, id, url, made), made);
  }

  /** The record of tasks changes, and nothing else. */
  lemma TaskedWorld(s: State, s1: State, id: string, task: Task)
    requires SameWorld(s, s1) && s1.inFlight.Keys <= s.inFlight.Keys + {id}
    ensures var r := s1.(inFlight := s1.inFlight[id := task]);
            SameWorld(s, r) && r.inFlight.Keys <= s.inFlight.Keys + {id}
  {
  }

  lemma ConnectServerWorld(s: State, id: string, can: bool, made: Option<ServerConnection>)
    requires Inv(s) && New(s, made)
    ensures SameWorld(s, DoConnectServer(s, id, can, made))
    ensures DoConnectServer(s, id, can, made).inFlight.Keys <= s.inFlight.Keys + {id}
  {
    if id in s.inFlight {
    } else if id in s.connections {
      RejoinWorld(s, id);
      RejoinTasks(s, id);
      TaskedWorld(s, Rejoin(s, id), id, Settled);
    } else if id in s.servers && s.servers[id].token {
      if made.Some? {
        CreateWorld(s, id, s.servers[id].url, made.value);
        CreateKeepsTasks(s, id, s.servers[id].url, made.value);
        TaskedWorld(s, CreateConnection(s, id, s.servers[id].url, made.value), id, Settled);
      }
    } else {
      TaskedWorld(s, s, id, if id in s.servers && can then Authenticating(s.servers[id].url) else Settled);
    }
  }

  lemma RejoinTasks(s: State, id: string)
    requires Inv(s) && id in s.connections
    ensures Rejoin(s, id).inFlight == s.inFlight
  {
    RejoinKeeps(s, id);
  }

  lemma AskKeepsWorld(s: State, j: Join)
    requires Inv(s)
    ensures SameWorld(s, Step(s, Ask(j))) && Step(s, Ask(j)).inFlight.Keys <= s.inFlight.Keys + {j.id}
  {
    if Enabled(s, Ask(j)) { ConnectServerWorld(s, j.id, j.can, j.made); }
  }

  lemma {:induction false} EachKeepsWorld(s: State, joins: seq<Join>)
    requires Inv(s)
    ensures SameWorld(s, ConnectEach(s, joins))
    decreases |joins|
  {
    if joins != [] {
      AskKeepsWorld(s, joins[0]);
      StepKeeps(s, Ask(joins[0]));
      EachKeepsWorld(Step(s, Ask(joins[0])), joins[1..]);
    }
  }

  // ---- Online, nothing that tries stops ----

  /** Online, a connection that was trying still is, and a new one is from the start. */
  lemma IdStaysTrying(s: State, e: Event, id: string)
    requires Inv(s) && Enabled(s, e) && !s.offline && id in Step(s, e).connections
    requires id in s.connections ==> TryingAt(s, id) && HasToken(s, id)
    requires HasToken(Step(s, e), id)
    ensures TryingAt(Step(s, e), id)
  {
    EventMoves(s, e);
    if id in s.connections {
      var c := s.connections[id];
      assert Alive(s, c);
      if e == DisconnectServer(id) {
        DisconnectStops(s, c);
      } else {
        StopsTryingIff(s, e, c);
      }
    } else {
      NewConnectionTries(s, e, id);
    }
  }

  lemma AskedTries(s: State, j: Join)
    requires Inv(s) && Enabled(s, Ask(j)) && j.id in s.connections && j.id !in s.inFlight && HasToken(s, j.id)
    ensures TryingAt(Step(s, Ask(j)), j.id)
  {
    var c := s.connections[j.id];
    StillLive(s, Ask(j), c);
    AskedIff(s, Ask(j), c);
    AliveIsTryingAt(Step(s, Ask(j)), j.id, c);
  }

  lemma AliveIsTryingAt(s: State, id: string, c: ServerConnection)
    requires Alive(s, c) && id in s.connections && s.connections[id] == c
    ensures TryingAt(s, id)
  {
  }

  lemma AskOnlyAdds(s: State, j: Join)
    requires Inv(s) && Enabled(s, Ask(j))
    ensures s.connections.Keys <= Step(s, Ask(j)).connections.Keys
    ensures Step(s, Ask(j)).inFlight.Keys <= s.inFlight.Keys + {j.id}
  {
    EventMoves(s, Ask(j));
    AskKeepsWorld(s, j);
  }

  /** The connection is trying, or is still to be asked and has no task in the way. */
  ghost predicate WillTry(s: State, joins: seq<Join>, id: string) {
    id in s.connections ==> TryingAt(s, id) || (Asked(joins, id) && id !in s.inFlight)
  }

  lemma WillTryOn(s: State, joins: seq<Join>, id: string)
    requires Inv(s) && !s.offline && joins != [] && EachEnabled(s, joins) && HasToken(s, id) && WillTry(s, joins, id)
    ensures WillTry(Step(s, Ask(joins[0])), joins[1..], id)
  {
    var j, r := joins[0], Step(s, Ask(joins[0]));
    AskKeepsWorld(s, j);
    AskOnlyAdds(s, j);
    if id in r.connections {
      if id !in s.connections || TryingAt(s, id) {
        IdStaysTrying(s, Ask(j), id);
      } else if j.id == id {
        AskedTries(s, j);
      } else {
        var k :| 0 <= k < |joins| && joins[k].id == id;
        assert joins[1..][k - 1].id == id;
      }
    }
  }

  lemma {:induction false} EachTries(s: State, joins: seq<Join>, id: string)
    requires Inv(s) && !s.offline && EachEnabled(s, joins) && HasToken(s, id) && WillTry(s, joins, id)
    ensures Inv(ConnectEach(s, joins)) && WillTry(ConnectEach(s, joins), [], id)
    decreases |joins|
  {
    if joins != [] {
      StepKeeps(s, Ask(joins[0]));
      AskKeepsWorld(s, joins[0]);
      WillTryOn(s, joins, id);
      EachTries(Step(s, Ask(joins[0])), joins[1..], id);
    } else if id in s.connections {
      assert !Asked(joins, id);
    }
  }

  /** After the online turn every live connection with a token, except the local one, is trying, whatever state the
      offline spell left it in. */
  lemma OnlineRevives(s: State, t: Turn, id: string)
    requires Inv(s) && t.Online? && CanTurn(s, t) && id != LOCAL_SERVER_ID
    requires id in AfterTurn(s, t).connections && HasToken(s, id)
    ensures TryingAt(AfterTurn(s, t), id)
  {
    var s1 := Step(s, GoOnline);
    StepKeeps(s, GoOnline);
    assert Asked(t.joins, id) && t.joins != [];
    EachTries(s1, t.joins, id);
  }

  // ---- Runs of turns ----

  /** The local connection has been asked to connect since the last offline spell: in the online turn itself when no
      server is listed, and otherwise by a later connectLocal (lines 956-976). */
  predicate LocalAsked(turns: seq<Turn>) {
    if turns == [] then true
    else
      var before := turns[..|turns| - 1];
      match turns[|turns| - 1]
      case Online(joins, _, _) => joins == [] || (LocalAsked(before) && !TurnRun(before).offline)
      case Single(e) => LocalAsked(before) || (e.ConnectLocal? && LOCAL_SERVER_ID !in TurnRun(before).inFlight)
  }

  /** If id is live it is trying, the local one if it has been asked. */
  predicate Tries(s: State, id: string, local: bool) {
    id in s.connections && (id != LOCAL_SERVER_ID || local) ==> TryingAt(s, id)
  }

  lemma DropKeepsAround(s: State, c: ServerConnection)
    requires c in s.conns
    ensures SameAround(s, DropAndRetry(s, c))
  {
  }

  lemma PayloadKeepsAround(s: State, c: ServerConnection, op: Op)
    requires c in s.conns
    ensures SameAround(s, HandlePayload(s, c, op))
  {
    match op
    case Reconnect => DropKeepsAround(s, c);
    case InvalidSession => DropKeepsAround(Put(s, c, s.conns[c].(session := None)), c);
    case _ =>
  }

  lemma LostKeepsAround(s: State, c: ServerConnection)
    requires c in s.conns
    ensures SameAround(s, SessionLost(s, c))
  {
  }

  lemma PostDoneKeepsAround(s: State, p: Handle, reply: Reply)
    requires p in s.posts && s.posts[p] in s.conns
    ensures SameAround(s, DoPostDone(s, p, reply))
  {
    var c := s.posts[p];
    var s0 := s.(posts := s.posts - {p});
    match reply
    case SessionOk(_, _) =>
    case OpenFailed(session, cursor) => LostKeepsAround(Put(s0, c, AdoptSession(s0.conns[c], session, cursor)), c);
    case SessionFailed => LostKeepsAround(s0, c);
  }

  lemma MessageKeepsAround(s: State, h: Handle)
    requires h in s.streams && s.streams[h].conn in s.conns
    ensures SameAround(s, DoStreamMessage(s, h))
  {
    var c := s.streams[h].conn;
    if Holds(s, h, c) && NextEntry(s, h).Some? {
      PayloadKeepsAround(Received(s, h, NextEntry(s, h).value), c, NextEntry(s, h).value.op);
    }
  }

  lemma CallbackKeepsAround(s: State, e: Event, c: ServerConnection)
    requires Inv(s) && Enabled(s, e) && BelongsTo(s, e, c)
    ensures SameAround(s, Step(s, e))
  {
    match e
    case PostDone(p, reply) => PostDoneKeepsAround(s, p, reply);
    case StreamOpen(h) => OpenKeepsAround(s, h);
    case StreamMessage(h) => MessageKeepsAround(s, h);
    case StreamError(h) => ErrorKeepsAround(s, h);
    case TimerFires(t) => TimerKeepsAround(s, t);
  }

  lemma OpenKeepsAround(s: State, h: Handle)
    requires h in s.streams && s.streams[h].conn in s.conns
    ensures SameAround(s, DoStreamOpen(s, h))
  {
    var c := s.streams[h].conn;
    if Current(s, c) && s.conns[c].source == Some(h) {
      assert DoStreamOpen(s, h) == Put(s, c, s.conns[c].(connecting := false, connected := true, attempts := 0));
    }
  }

  lemma ErrorKeepsAround(s: State, h: Handle)
    requires h in s.streams && s.streams[h].conn in s.conns
    ensures SameAround(s, DoStreamError(s, h))
  {
    DropKeepsAround(s, s.streams[h].conn);
  }

  lemma TimerKeepsAround(s: State, t: Handle)
    requires t in s.timers && s.timers[t].conn in s.conns
    ensures SameAround(s, DoTimerFires(s, t))
  {
    var c := s.timers[t].conn;
    ConnectKeepsWorld(Put(s, c, s.conns[c].(timer := None)).(timers := s.timers - {t}), c);
  }

  lemma AuthKeepsOffline(s: State, id: string, ok: bool, made: Option<ServerConnection>)
    requires id in s.inFlight && s.inFlight[id].Authenticating?
    ensures DoAuthDone(s, id, ok, made).offline == s.offline
  {
    var servers := if id in s.servers then s.servers[id := s.servers[id].(token := true)] else s.servers;
    var s1 := s.(inFlight := s.inFlight[id := Settled]).(localToken := true, servers := servers);
    if made.Some? { CreateWorld(s1, id, s.inFlight[id].url, made.value); }
  }

  lemma DisconnectKeepsAround(s: State, id: string)
    requires id in s.connections ==> s.connections[id] in s.conns
    ensures SameAround(s, DoDisconnect(s, id))
  {
  }

  lemma CallKeepsOffline(s: State, e: Event)
    requires Inv(s) && Enabled(s, e) && (e.ConnectServer? || e.AuthDone? || e.ConnectLocal? || e.DisconnectServer?)
    ensures Step(s, e).offline == s.offline
  {
    match e
    case ConnectServer(id, can, made) => ConnectServerWorld(s, id, can, made);
    case AuthDone(id, ok, made) => AuthKeepsOffline(s, id, ok, made);
    case ConnectLocal(url, made) => LocalWorld(s, url, made);
    case DisconnectServer(id) => DisconnectKeepsAround(s, id);
  }

  predicate IsCallback(e: Event) {
    e.PostDone? || e.StreamOpen? || e.StreamMessage? || e.StreamError? || e.TimerFires?
  }

  lemma CallbacksKeepAround(s: State, e: Event)
    requires Inv(s) && Enabled(s, e) && IsCallback(e)
    ensures SameAround(s, Step(s, e))
  {
    match e
    case PostDone(p, _) => CallbackKeepsAround(s, e, s.posts[p]);
    case StreamOpen(h) => CallbackKeepsAround(s, e, s.streams[h].conn);
    case StreamMessage(h) => CallbackKeepsAround(s, e, s.streams[h].conn);
    case StreamError(h) => CallbackKeepsAround(s, e, s.streams[h].conn);
    case TimerFires(t) => CallbackKeepsAround(s, e, s.timers[t].conn);
  }

  /** Only the browser's events move the offline flag. */
  lemma OfflineMoves(s: State, e: Event)
    requires Inv(s) && Enabled(s, e)
    ensures Step(s, e).offline == if e.GoOffline? then true else if e.GoOnline? then false else s.offline
  {
    if IsCallback(e) {
      CallbacksKeepAround(s, e);
    } else if e.ConnectServer? || e.AuthDone? || e.ConnectLocal? || e.DisconnectServer? {
      CallKeepsOffline(s, e);
    }
  }

  /** A local connection with a token that is asked to connect, or made, tries. */
  lemma LocalTries(s: State, url: string, made: Option<ServerConnection>)
    requires Inv(s) && Enabled(s, ConnectLocal(url, made)) && s.localToken && LOCAL_SERVER_ID !in s.inFlight
    requires LOCAL_SERVER_ID in Step(s, ConnectLocal(url, made)).connections
    requires HasToken(Step(s, ConnectLocal(url, made)), LOCAL_SERVER_ID)
    ensures TryingAt(Step(s, ConnectLocal(url, made)), LOCAL_SERVER_ID)
  {
    var e := ConnectLocal(url, made);
    if LOCAL_SERVER_ID in s.connections {
      var c := s.connections[LOCAL_SERVER_ID];
      StillLive(s, e, c);
      AskedIff(s, e, c);
      AliveIsTryingAt(Step(s, e), LOCAL_SERVER_ID, c);
    } else {
      NewConnectionTries(s, e, LOCAL_SERVER_ID);
    }
  }

  lemma SingleTries(s: State, e: Event, id: string, local: bool, local': bool)
    requires Inv(s) && Enabled(s, e) && !e.GoOnline? && Held(s, id) && Held(Step(s, e), id)
    requires !s.offline ==> Tries(s, id, local)
    requires local' ==> local || (e.ConnectLocal? && LOCAL_SERVER_ID !in s.inFlight)
    ensures !Step(s, e).offline ==> Tries(Step(s, e), id, local')
  {
    OfflineMoves(s, e);
    if !Step(s, e).offline && id in Step(s, e).connections && (id != LOCAL_SERVER_ID || local') {
      if id in s.connections && id == LOCAL_SERVER_ID && !local {
        LocalTries(s, e.url, e.made);
      } else {
        IdStaysTrying(s, e, id);
      }
    }
  }

  lemma OnlineLocalTries(s: State, t: Turn, local: bool)
    requires Inv(s) && t.Online? && CanTurn(s, t) && Held(s, LOCAL_SERVER_ID)
    requires Held(AfterTurn(s, t), LOCAL_SERVER_ID)
    requires !s.offline ==> Tries(s, LOCAL_SERVER_ID, local)
    requires t.joins == [] || (local && !s.offline)
    requires LOCAL_SERVER_ID in AfterTurn(s, t).connections
    ensures TryingAt(AfterTurn(s, t), LOCAL_SERVER_ID)
  {
    var s1 := Step(s, GoOnline);
    StepKeeps(s, GoOnline);
    if t.joins == [] {
      assert ConnectEach(s1, t.joins) == s1;
      assert s1.localToken && LOCAL_SERVER_ID !in s1.inFlight;
      LocalTries(s1, t.url, t.local);
    } else {
      EachKeepsWorld(s1, t.joins);
      assert HasToken(s1, LOCAL_SERVER_ID);
      EachTries(s1, t.joins, LOCAL_SERVER_ID);
    }
  }

  lemma OnlineTries(s: State, t: Turn, id: string, local: bool)
    requires Inv(s) && t.Online? && CanTurn(s, t) && Held(s, id) && Held(AfterTurn(s, t), id)
    requires !s.offline ==> Tries(s, id, local)
    ensures Tries(AfterTurn(s, t), id, t.joins == [] || (local && !s.offline))
  {
    if id in AfterTurn(s, t).connections {
      if id != LOCAL_SERVER_ID {
        OnlineKeepsTokens(s, t);
        OnlineRevives(s, t, id);
      } else if t.joins == [] || (local && !s.offline) {
        OnlineLocalTries(s, t, local);
      }
    }
  }

  lemma OnlineKeepsTokens(s: State, t: Turn)
    requires Inv(s) && t.Online? && CanTurn(s, t)
    ensures AfterTurn(s, t).servers == s.servers && AfterTurn(s, t).localToken == s.localToken
  {
    var s1 := Step(s, GoOnline);
    StepKeeps(s, GoOnline);
    EachKeepsWorld(s1, t.joins);
    if t.joins == [] && s1.localToken {
      LocalWorld(s1, t.url, t.local);
    }
  }

  lemma LocalWorld(s: State, url: string, made: Option<ServerConnection>)
    requires Inv(s) && New(s, made)
    ensures SameWorld(s, DoConnectLocal(s, url, made))
  {
    if LOCAL_SERVER_ID in s.inFlight || !s.localToken {
    } else if LOCAL_SERVER_ID in s.connections {
      RejoinWorld(s, LOCAL_SERVER_ID);
    } else if made.Some? {
      CreateWorld(s, LOCAL_SERVER_ID, url, made.value);
    }
  }

  /** In every run of turns, offline spells included, that holds the token of id whenever id is live, id is connected,
      connecting or waiting for a retry whenever it is live and the manager online; the local connection again from the
      moment the handler reaches it. */
  lemma {:induction false} NoDeadEnd(turns: seq<Turn>, id: string)
    requires Supplied(turns, id)
    ensures !TurnRun(turns).offline ==> Tries(TurnRun(turns), id, LocalAsked(turns))
    decreases |turns|
  {
    if turns != [] {
      var init, t := turns[..|turns| - 1], turns[|turns| - 1];
      var s := TurnRun(init);
      NoDeadEnd(init, id);
      TurnsAreRuns(init);
      EveryRunKeeps(Events(init));
      match t
      case Single(e) => SingleTries(s, e, id, LocalAsked(init), LocalAsked(turns));
      case Online(joins, url, local) => OnlineTries(s, t, id, LocalAsked(init));
    }
  }

  /** So if every live connection has its token after every turn, all of them are trying whenever the manager is online,
      the local one as above. */
  lemma NoDeadEnds(turns: seq<Turn>)
    requires forall id :: Supplied(turns, id)
    ensures !TurnRun(turns).offline ==> forall id :: Tries(TurnRun(turns), id, LocalAsked(turns))
  {
    forall id ensures !TurnRun(turns).offline ==> Tries(TurnRun(turns), id, LocalAsked(turns)) {
      NoDeadEnd(turns, id);
    }
  }

  // ---- An offline spell ----

  /** A failure while offline, with no retry pending, leaves a connection that does not try; it stays that way, however
      long the spell and whatever happens to others, until it is asked to connect or disconnected. */
  lemma OfflineDropGivesUp(s: State, e: Event, c: ServerConnection)
    requires Inv(s) && Enabled(s, e) && Alive(s, c) && s.offline && s.conns[c].timer.None? && Drops(s, e, c)
    ensures Current(Step(s, e), c) && !Trying(Step(s, e).conns[c])
  {
    DropsAreCallbacks(s, e, c);
    StillCurrentAfter(s, e, c);
    CallbackStopsIff(s, e, c);
  }

  lemma DropsAreCallbacks(s: State, e: Event, c: ServerConnection)
    requires Drops(s, e, c)
    ensures BelongsTo(s, e, c) && !e.DisconnectServer?
  {
  }

  /** The run never asks c to connect with a token, and never disconnects its server. */
  ghost predicate NeverAsked(s: State, events: seq<Event>, c: ServerConnection)
    decreases |events|
  {
    events == [] ||
    (var before, e := Run(s, events[..|events| - 1]), events[|events| - 1];
     && NeverAsked(s, events[..|events| - 1], c)
     && (Enabled(before, e) && c in before.conns ==>
           && !(Asks(before, e, c) && HasToken(before, before.conns[c].serverId))
           && e != DisconnectServer(before.conns[c].serverId)))
  }

  lemma {:induction false} StaysGivenUp(s: State, events: seq<Event>, c: ServerConnection)
    requires Inv(s) && RetryOk(s) && Current(s, c) && !Trying(s.conns[c]) && NeverAsked(s, events, c)
    ensures Current(Run(s, events), c) && !Trying(Run(s, events).conns[c])
    decreases |events|
  {
    if events != [] {
      var init, e := events[..|events| - 1], events[|events| - 1];
      var before := Run(s, init);
      StaysGivenUp(s, init, c);
      RunKeeps(s, init);
      RunRetries(s, init);
      if Enabled(before, e) {
        StepGivenUp(before, e, c);
      }
    }
  }

  lemma StepGivenUp(s: State, e: Event, c: ServerConnection)
    requires Inv(s) && RetryOk(s) && Enabled(s, e) && Current(s, c) && !Trying(s.conns[c])
    requires !(Asks(s, e, c) && HasToken(s, s.conns[c].serverId)) && e != DisconnectServer(s.conns[c].serverId)
    ensures Current(Step(s, e), c) && !Trying(Step(s, e).conns[c])
  {
    StartsTryingIff(s, e, c);
    StillCurrentAfter(s, e, c);
  }

  lemma StillCurrentAfter(s: State, e: Event, c: ServerConnection)
    requires Inv(s) && Enabled(s, e) && Current(s, c) && e != DisconnectServer(s.conns[c].serverId)
    ensures Current(Step(s, e), c)
  {
    StillLive(s, e, c);
    StepKeeps(s, e);
  }

  lemma {:induction false} RunRetries(s: State, events: seq<Event>)
    requires Inv(s) && RetryOk(s)
    ensures RetryOk(Run(s, events))
    decreases |events|
  {
    if events != [] {
      RunRetries(s, events[..|events| - 1]);
      RunKeeps(s, events[..|events| - 1]);
      StepRetry(Run(s, events[..|events| - 1]), events[|events| - 1]);
    }
  }

  // ---- Being asked to connect ----

  /** A call of connectServer puts a new session request under way, or finds the connection covered by another, iff it
      was not already connecting: one that is connecting with nothing behind it is not revived. */
  lemma AskedWorksIff(s: State, id: string, can: bool)
    requires Inv(s) && id in s.connections && id !in s.inFlight && HasToken(s, id)
    ensures var c := s.connections[id];
            var r := Step(s, ConnectServer(id, can, None));
            c in r.conns &&
            ((s.next in r.posts && r.posts[s.next] == c) || (r.conns[c].connected && Covered(r, c))
             <==> !s.conns[c].connecting)
  {
    var c := s.connections[id];
    var s1 := CloseSource(Put(s, c, s.conns[c].(allow := true)), c);
    var e := ConnectServer(id, can, None);
    NextIsNew(s);
    StepKeeps(s, e);
    assert Step(s, e) == Rejoin(s, id).(inFlight := Rejoin(s, id).inFlight[id := Settled]);
    AskedSseIff(s1, c);
    if s.conns[c].connecting {
      BusyUncovered(Step(s, e), c);
    }
  }

  lemma AskedSseIff(s: State, c: ServerConnection)
    requires Current(s, c) && s.conns[c].source.None? && HasToken(s, s.conns[c].serverId)
    ensures var r := ConnectRealtimeSse(s, c);
            if s.conns[c].connecting then r == s
            else (s.next in r.posts && r.posts[s.next] == c) || (c in r.conns && r.conns[c].connected && Covered(r, c))
  {
    if s.conns[c].connecting {
    } else if Covered(s, c) {
      StillCovered(s, c);
    } else {
      assert ConnectRealtimeSse(s, c) == StartSession(ClearTimer(s, c), c);
    }
  }

  lemma BusyUncovered(s: State, c: ServerConnection)
    requires Inv(s) && c in s.conns && Busy(s.conns[c])
    ensures !Covered(s, c)
  {
  }

  /** Being marked connected does not change by whom c is covered. */
  lemma StillCovered(s: State, c: ServerConnection)
    requires c in s.conns && Covered(s, c)
    ensures Covered(s.(conns := s.conns[c := s.conns[c].(connected := true, connecting := false)]), c)
  {
    var d :| d in s.connections && s.connections[d] != c && s.connections[d] in s.conns
             && Normalize(s.conns[s.connections[d]].serverUrl) == Normalize(s.conns[c].serverUrl)
             && Busy(s.conns[s.connections[d]]);
    var r := s.(conns := s.conns[c := s.conns[c].(connected := true, connecting := false)]);
    assert r.conns[r.connections[d]] == s.conns[s.connections[d]];
  }
}
