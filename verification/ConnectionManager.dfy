/**
 The ConnectionManager class of client/src/lib/connectionManager.ts, realtime-v2 path.

 Each method does what the code does, assignment by assignment, and is proved to take the manager from one
 state of RealtimeModel to the next.  The lemmas of RealtimeSafety, RealtimeResume and RealtimeLiveness are
 about those states.
 */
module ConnectionManagers {
  import opened Options
  import opened RealtimeModel
  import opened RealtimeOnline

  class ConnectionManager {
    var connections: map<string, ServerConnection>
    var connecting: map<string, Task>
    var offline: bool
    // The server list, the token store, and what the browser keeps: requests, streams and timers.
    var servers: map<string, Server>
    var localToken: bool
    var posts: map<Handle, ServerConnection>
    var streams: map<Handle, Stream>
    var timers: map<Handle, Timer>
    var next: Handle
    var logs: map<string, seq<Entry>>
    ghost var objects: set<ServerConnection>

    ghost predicate Valid()
      reads this
    {
      && (forall id :: id in connections ==> connections[id] in objects)
      && (forall p :: p in posts ==> posts[p] in objects)
      && (forall h :: h in streams ==> streams[h].conn in objects)
      && (forall t :: t in timers ==> timers[t].conn in objects)
    }

    ghost function Records(): map<ServerConnection, Conn>
      reads this, objects
    {
      map c | c in objects :: c.View()
    }

    ghost function Now(): State
      reads this, objects
    {
      State(Records(), connections, connecting, offline, servers, localToken, posts, streams, timers, next, logs)
    }

    twostate lemma OnlyChanged(conn: ServerConnection)
      requires conn in objects && objects == old(objects)
      requires forall c: ServerConnection :: c in objects && c != conn ==> unchanged(c)
      ensures Records() == old(Records())[conn := conn.View()]
    {
    }

    constructor ()
      ensures Valid() && Now() == Init && objects == {}
    {
      connections, connecting, offline := map[], map[], false;
      servers, localToken := map[], false;
      posts, streams, timers, next, logs := map[], map[], map[], 0, map[];
      objects := {};
    }

    predicate IsCurrentConnection(conn: ServerConnection)
      reads this
    {
      conn.serverId in connections && connections[conn.serverId] == conn
    }

    predicate TokenForConnection(conn: ServerConnection)
      reads this
    {
      if conn.serverId == LOCAL_SERVER_ID then localToken
      else conn.serverId in servers && servers[conn.serverId].token
    }

    /** `conn.eventSource?.close(); conn.eventSource = null` */
    method CloseEventSource(conn: ServerConnection)
      requires Valid() && conn in objects
      modifies this`streams, conn`eventSource
      ensures Valid() && Now() == CloseSource(old(Now()), conn)
    {
      match conn.eventSource {
        case Some(h) =>
          if h in streams {
            streams := streams[h := streams[h].(open := false)];
          }
        case None =>
      }
      conn.eventSource := None;
      OnlyChanged(conn);
    }

    /** connectRealtime: any stream is closed before a new one is asked for. */
    method ConnectRealtime(conn: ServerConnection)
      requires Valid() && conn in objects
      modifies this`streams, this`timers, this`posts, this`next, conn
      ensures Valid() && Now() == RealtimeModel.ConnectRealtime(old(Now()), conn)
    {
      CloseEventSource(conn);
      ConnectRealtimeSse(conn);
    }

    /** The loop of lines 447-464: does another live connection to this URL have, or await, a stream? */
    method IsCovered(conn: ServerConnection) returns (covered: bool)
      requires Valid() && conn in objects
      ensures covered == Covered(Now(), conn)
    {
      covered := false;
      var rest := connections.Keys;
      while rest != {}
        invariant rest <= connections.Keys
        invariant !covered
        invariant forall id :: id in connections && id !in rest && connections[id] != conn
                               && Normalize(connections[id].serverUrl) == Normalize(conn.serverUrl) ==>
                               connections[id].eventSource.None? && !connections[id].connecting
        decreases rest
      {
        var id :| id in rest;
        rest := rest - {id};
        var other := connections[id];
        if other != conn && Normalize(other.serverUrl) == Normalize(conn.serverUrl)
           && (other.eventSource.Some? || other.connecting) {
          assert Busy(Now().conns[other]);
          covered := true;
          return;
        }
      }
    }

    method SetStatus(conn: ServerConnection, connected: bool, connecting: bool)
      requires Valid() && conn in objects
      modifies conn`connected, conn`connecting
      ensures Valid()
      ensures Now() == Put(old(Now()), conn, old(conn.View()).(connected := connected, connecting := connecting))
    {
      conn.connected := connected;
      conn.connecting := connecting;
      OnlyChanged(conn);
    }

    method ClearReconnectTimer(conn: ServerConnection)
      requires Valid() && conn in objects
      modifies this`timers, conn`reconnectTimer
      ensures Valid() && Now() == ClearTimer(old(Now()), conn)
    {
      if conn.reconnectTimer.Some? {
        timers := timers - {conn.reconnectTimer.value};
      }
      conn.reconnectTimer := None;
      OnlyChanged(conn);
    }

    /** connectRealtimeSse up to its await. */
    method ConnectRealtimeSse(conn: ServerConnection)
      requires Valid() && conn in objects
      modifies this`timers, this`posts, this`next, conn
      ensures Valid() && Now() == RealtimeModel.ConnectRealtimeSse(old(Now()), conn)
    {
      if !IsCurrentConnection(conn) || conn.connecting || conn.eventSource.Some? || !TokenForConnection(conn) {
        return;
      }
      var covered := IsCovered(conn);
      if covered {
        SetStatus(conn, true, false);
      } else {
        ClearReconnectTimer(conn);
        SendSessionRequest(conn);
      }
    }

    method SendSessionRequest(conn: ServerConnection)
      requires Valid() && conn in objects
      modifies this`posts, this`next, conn`connecting, conn`allowReconnect
      ensures Valid() && Now() == StartSession(old(Now()), conn)
    {
      conn.connecting := true;
      conn.allowReconnect := true;
      posts := posts[next := conn];
      next := next + 1;
      OnlyChanged(conn);
    }

    /** reconnectGateway */
    method ReconnectGateway(conn: ServerConnection)
      requires Valid() && conn in objects
      modifies this`timers, this`next, conn`reconnectAttempts, conn`reconnectTimer
      ensures Valid() && Now() == RealtimeModel.ReconnectGateway(old(Now()), conn)
    {
      if !conn.allowReconnect || conn.reconnectTimer.Some? || !IsCurrentConnection(conn) || offline {
        return;
      }
      ScheduleRetry(conn);
    }

    method ScheduleRetry(conn: ServerConnection)
      requires Valid() && conn in objects
      modifies this`timers, this`next, conn`reconnectAttempts, conn`reconnectTimer
      ensures Valid() && Now() == StartRetry(old(Now()), conn)
    {
      ghost var s := Now();
      RetryInTwo(s, conn);
      var delay := Backoff(conn.reconnectAttempts);
      CountAttempt(conn);
      ghost var s1 := Now();
      assert s1 == Put(s, conn, s.conns[conn].(attempts := s.conns[conn].attempts + 1));
      SetTimeout(conn, delay);
    }

    static lemma RetryInTwo(s: State, c: ServerConnection)
      requires c in s.conns
      ensures var s1 := Put(s, c, s.conns[c].(attempts := s.conns[c].attempts + 1));
              StartRetry(s, c) == Put(s1, c, s1.conns[c].(timer := Some(s1.next)))
                                  .(timers := s1.timers[s1.next := Timer(c, Backoff(s.conns[c].attempts))],
                                    next := s1.next + 1)
    {
    }

    method CountAttempt(conn: ServerConnection)
      requires Valid() && conn in objects
      modifies conn`reconnectAttempts
      ensures Valid()
      ensures var s := old(Now()); Now() == Put(s, conn, s.conns[conn].(attempts := s.conns[conn].attempts + 1))
    {
      conn.reconnectAttempts := conn.reconnectAttempts + 1;
      OnlyChanged(conn);
    }

    /** `conn.reconnectTimer = setTimeout(.., delay)` */
    method SetTimeout(conn: ServerConnection, delay: nat)
      requires Valid() && conn in objects
      modifies this`timers, this`next, conn`reconnectTimer
      ensures Valid()
      ensures var s := old(Now());
              Now() == Put(s, conn, s.conns[conn].(timer := Some(s.next)))
                       .(timers := s.timers[s.next := Timer(conn, delay)], next := s.next + 1)
    {
      timers := timers[next := Timer(conn, delay)];
      conn.reconnectTimer := Some(next);
      next := next + 1;
      OnlyChanged(conn);
    }

    // ---- Callbacks of the session request and of the stream ----

    /** The continuation of the session request (lines 485-578). */
    method PostDone(p: Handle, reply: Reply)
      requires Valid() && p in posts
      modifies this`posts, this`streams, this`timers, this`next, posts[p]
      ensures Valid() && Now() == DoPostDone(old(Now()), p, reply)
    {
      var conn := posts[p];
      ForgetPost(p);
      if IsCurrentConnection(conn) {
        match reply {
          case SessionOk(session, cursor) =>
            if conn.allowReconnect {
              SessionAnswered(conn, session, cursor);
            }
          case OpenFailed(session, cursor) =>
            if conn.allowReconnect {
              Adopt(conn, session, cursor);
              this.SessionFailed(conn);
            }
          case SessionFailed =>
            this.SessionFailed(conn);
        }
      }
    }

    method ForgetPost(p: Handle)
      requires Valid()
      modifies this`posts
      ensures Valid() && Now() == old(Now()).(posts := old(Now()).posts - {p})
    {
      posts := posts - {p};
    }

    method SessionAnswered(conn: ServerConnection, session: Option<string>, cursor: Option<nat>)
      requires Valid() && conn in objects
      modifies this`streams, this`next, conn
      ensures Valid()
      ensures Now() == OpenStream(Put(old(Now()), conn, AdoptSession(old(conn.View()), session, cursor)), conn)
    {
      Adopt(conn, session, cursor);
      OpenEventSource(conn);
    }

    method SessionFailed(conn: ServerConnection)
      requires Valid() && conn in objects
      modifies this`timers, this`next, conn
      ensures Valid() && Now() == SessionLost(old(Now()), conn)
    {
      SetStatus(conn, false, false);
      ReconnectGateway(conn);
    }

    method Adopt(conn: ServerConnection, session: Option<string>, cursor: Option<nat>)
      requires Valid() && conn in objects
      modifies conn`sessionId, conn`realtimeCursor, conn`origin
      ensures Valid() && Now() == Put(old(Now()), conn, AdoptSession(old(conn.View()), session, cursor))
    {
      if session.Some? && session.value != "" {
        conn.sessionId := session;
      }
      if cursor.Some? && conn.realtimeCursor.None? {
        conn.realtimeCursor := cursor;
        conn.origin := cursor;
      }
      OnlyChanged(conn);
    }

    /** `new EventSource(streamUrl)`, with the cursor in the query string. */
    method OpenEventSource(conn: ServerConnection)
      requires Valid() && conn in objects
      modifies this`streams, this`next, conn`eventSource
      ensures Valid() && Now() == OpenStream(old(Now()), conn)
    {
      assert Now().logs == logs;
      var start := StartOf(conn);
      assert start == StreamStart(Now(), conn);
      streams := streams[next := Stream(conn, true, start)];
      conn.eventSource := Some(next);
      next := next + 1;
      OnlyChanged(conn);
    }

    function StartOf(conn: ServerConnection): int
      reads this, conn
    {
      match conn.realtimeCursor
      case Some(k) => k
      case None =>
        var url := Normalize(conn.serverUrl);
        if url in logs && logs[url] != [] then logs[url][|logs[url]| - 1].id else -1
    }

    method OnOpen(h: Handle)
      requires Valid() && h in streams
      modifies this`streams, streams[h].conn
      ensures Valid() && Now() == DoStreamOpen(old(Now()), h)
    {
      var conn := streams[h].conn;
      if !IsCurrentConnection(conn) || conn.eventSource != Some(h) {
        streams := streams[h := streams[h].(open := false)];
      } else {
        MarkOpen(conn);
      }
    }

    method MarkOpen(conn: ServerConnection)
      requires Valid() && conn in objects
      modifies conn`connecting, conn`connected, conn`reconnectAttempts
      ensures Valid()
      ensures Now() == Put(old(Now()), conn, old(conn.View()).(connecting := false, connected := true, attempts := 0))
    {
      conn.connecting := false;
      conn.connected := true;
      conn.reconnectAttempts := 0;
      OnlyChanged(conn);
    }

    /** handleRealtimeEvent for the next entry the server sends on the stream. */
    method OnMessage(h: Handle)
      requires Valid() && h in streams
      modifies this`streams, this`timers, this`next, streams[h].conn
      ensures Valid() && Now() == DoStreamMessage(old(Now()), h)
    {
      var conn := streams[h].conn;
      if !IsCurrentConnection(conn) || conn.eventSource != Some(h) {
        return;
      }
      var url := Normalize(conn.serverUrl);
      var log := if url in logs then logs[url] else [];
      var n := UpTo(log, streams[h].after);
      if n == |log| {
        return;
      }
      Receive(h, log[n]);
      HandlePayload(conn, log[n].op);
    }

    method Receive(h: Handle, entry: Entry)
      requires Valid() && h in streams
      modifies this`streams, streams[h].conn`realtimeCursor, streams[h].conn`handled, streams[h].conn`origin
      ensures Valid() && Now() == Received(old(Now()), h, entry)
    {
      var conn := streams[h].conn;
      if conn.origin.None? {
        conn.origin := Some(streams[h].after);
      }
      streams := streams[h := streams[h].(after := entry.id)];
      conn.realtimeCursor := Some(entry.id);
      conn.handled := conn.handled + [entry];
      OnlyChanged(conn);
    }

    method HandlePayload(conn: ServerConnection, op: Op)
      requires Valid() && conn in objects
      modifies this`streams, this`timers, this`next, conn
      ensures Valid() && Now() == RealtimeModel.HandlePayload(old(Now()), conn, op)
    {
      match op {
        case Ready(session) =>
          conn.sessionId := session;
          conn.reconnectAttempts := 0;
          OnlyChanged(conn);
        case Dispatch(_) =>
        case HeartbeatAck =>
        case Reconnect =>
          DropAndRetry(conn);
        case InvalidSession =>
          conn.sessionId := None;
          OnlyChanged(conn);
          DropAndRetry(conn);
      }
    }

    method DropAndRetry(conn: ServerConnection)
      requires Valid() && conn in objects
      modifies this`streams, this`timers, this`next, conn
      ensures Valid() && Now() == RealtimeModel.DropAndRetry(old(Now()), conn)
    {
      CloseEventSource(conn);
      SetStatus(conn, false, false);
      ReconnectGateway(conn);
    }

    method OnError(h: Handle)
      requires Valid() && h in streams
      modifies this`streams, this`timers, this`next, streams[h].conn
      ensures Valid() && Now() == DoStreamError(old(Now()), h)
    {
      var conn := streams[h].conn;
      if !IsCurrentConnection(conn) || conn.eventSource != Some(h) {
        return;
      }
      DropAndRetry(conn);
    }

    method OnTimer(t: Handle)
      requires Valid() && t in timers
      modifies this`streams, this`timers, this`posts, this`next, timers[t].conn
      ensures Valid() && Now() == DoTimerFires(old(Now()), t)
    {
      var conn := timers[t].conn;
      timers := timers - {t};
      conn.reconnectTimer := None;
      OnlyChanged(conn);
      if !conn.allowReconnect || !IsCurrentConnection(conn) {
        return;
      }
      ConnectRealtime(conn);
    }

    // ---- Calls ----

    method DisconnectServer(serverId: string)
      requires Valid()
      modifies this`connections, this`streams, this`timers, objects
      ensures Valid() && objects == old(objects) && Now() == DoDisconnect(old(Now()), serverId)
    {
      if serverId !in connections {
        return;
      }
      var conn := connections[serverId];
      ClearReconnectTimer(conn);
      CloseEventSource(conn);
      Forget(serverId, conn);
    }

    method Forget(serverId: string, conn: ServerConnection)
      requires Valid() && conn in objects
      modifies this`connections, conn`allowReconnect, conn`connecting, conn`connected
      ensures Valid()
      ensures var s := old(Now());
              Now() == Put(s, conn, s.conns[conn].(allow := false, connecting := false, connected := false))
                       .(connections := s.connections - {serverId})
    {
      conn.allowReconnect := false;
      conn.connecting := false;
      conn.connected := false;
      connections := connections - {serverId};
      OnlyChanged(conn);
    }

    /** An existing record is asked to connect again (lines 257-261). */
    method Reuse(serverId: string)
      requires Valid() && serverId in connections
      modifies this`streams, this`timers, this`posts, this`next, objects
      ensures Valid() && Now() == Rejoin(old(Now()), serverId)
    {
      var existing := connections[serverId];
      existing.allowReconnect := true;
      OnlyChanged(existing);
      ConnectRealtime(existing);
    }

    /** Lines 299-324: a new record goes into the map and starts connecting. */
    method Create(serverId: string, url: string) returns (conn: ServerConnection)
      requires Valid()
      modifies this`connections, this`objects, this`streams, this`timers, this`posts, this`next
      ensures Valid() && fresh(conn) && objects == old(objects) + {conn}
      ensures Now() == CreateConnection(old(Now()), serverId, url, conn)
    {
      conn := Register(serverId, url);
      ConnectRealtime(conn);
    }

    method Register(serverId: string, url: string) returns (conn: ServerConnection)
      requires Valid()
      modifies this`connections, this`objects
      ensures Valid() && fresh(conn) && objects == old(objects) + {conn}
      ensures Now() == Insert(old(Now()), serverId, url, conn)
    {
      conn := new ServerConnection(serverId, url);
      connections := connections[serverId := conn];
      objects := objects + {conn};
      assert Records() == old(Records())[conn := conn.View()];
    }

    /** connectServer and connectServerInternal up to its first await. */
    method ConnectServer(serverId: string, canUseChallengeAuth: bool) returns (made: Option<ServerConnection>)
      requires Valid()
      modifies this`connections, this`connecting, this`objects, this`streams, this`timers, this`posts, this`next,
               objects
      ensures Valid() && (made.Some? <==> Creates(old(Now()), serverId))
      ensures made.Some? ==> fresh(made.value)
      ensures objects == old(objects) + if made.Some? then {made.value} else {}
      ensures Now() == DoConnectServer(old(Now()), serverId, canUseChallengeAuth, made)
    {
      made := None;
      if serverId in connecting {
      } else if serverId in connections {
        Reuse(serverId);
        Settle(serverId);
      } else if serverId in servers && servers[serverId].token {
        var conn := Create(serverId, servers[serverId].url);
        made := Some(conn);
        Settle(serverId);
      } else if serverId in servers && canUseChallengeAuth {
        connecting := connecting[serverId := Authenticating(servers[serverId].url)];
      } else {
        Settle(serverId);
      }
    }

    method Settle(serverId: string)
      requires Valid()
      modifies this`connecting
      ensures Valid() && Now() == old(Now()).(inFlight := old(Now()).inFlight[serverId := Settled])
    {
      connecting := connecting[serverId := Settled];
    }

    /** connectServerInternal after authenticate. */
    method AuthSucceeded(serverId: string) returns (made: ServerConnection)
      requires Valid() && serverId in connecting && connecting[serverId].Authenticating?
      modifies this`connections, this`connecting, this`objects, this`streams, this`timers, this`posts, this`next,
               this`servers, this`localToken
      ensures Valid() && fresh(made) && objects == old(objects) + {made}
      ensures Now() == DoAuthDone(old(Now()), serverId, true, Some(made))
    {
      var url := connecting[serverId].url;
      Settle(serverId);
      StoreToken(serverId);
      made := Create(serverId, url);
    }

    method StoreToken(serverId: string)
      requires Valid()
      modifies this`servers, this`localToken
      ensures Valid()
      ensures var s := old(Now());
              Now() == s.(localToken := true, servers :=
                            if serverId in s.servers then s.servers[serverId := s.servers[serverId].(token := true)]
                            else s.servers)
    {
      localToken := true;
      if serverId in servers {
        servers := servers[serverId := servers[serverId].(token := true)];
      }
    }

    /** connectLocal and connectLocalInternal. */
    method ConnectLocal(url: string) returns (made: Option<ServerConnection>)
      requires Valid()
      modifies this`connections, this`connecting, this`objects, this`streams, this`timers, this`posts, this`next,
               objects
      ensures Valid() && (made.Some? <==> CreatesLocal(old(Now())))
      ensures made.Some? ==> fresh(made.value)
      ensures objects == old(objects) + if made.Some? then {made.value} else {}
      ensures Now() == DoConnectLocal(old(Now()), url, made)
    {
      made := None;
      if LOCAL_SERVER_ID !in connecting {
        if localToken {
          if LOCAL_SERVER_ID in connections {
            Reuse(LOCAL_SERVER_ID);
          } else {
            var conn := Create(LOCAL_SERVER_ID, url);
            made := Some(conn);
          }
        }
        Settle(LOCAL_SERVER_ID);
      }
    }

    /** One call of connectServer as an event of the model. */
    method AskOne(serverId: string, can: bool) returns (ghost join: Join)
      requires Valid()
      modifies this`connections, this`connecting, this`objects, this`streams, this`timers, this`posts, this`next,
               objects
      ensures Valid() && objects >= old(objects) && fresh(objects - old(objects))
      ensures join.id == serverId && Enabled(old(Now()), Ask(join)) && Now() == Step(old(Now()), Ask(join))
    {
      ghost var before := Now();
      var made := ConnectServer(serverId, can);
      join := Join(serverId, can, made);
      AskIs(before, join);
    }

    static lemma AskIs(s: State, j: Join)
      requires New(s, j.made) && (j.made.Some? <==> Creates(s, j.id))
      ensures Enabled(s, Ask(j)) && Step(s, Ask(j)) == DoConnectServer(s, j.id, j.can, j.made)
    {
    }

    /** The calls of line 957, in the order of the list. */
    method AskEach(list: seq<string>, can: bool) returns (ghost joins: seq<Join>)
      requires Valid()
      modifies this`connections, this`connecting, this`objects, this`streams, this`timers, this`posts, this`next,
               objects
      ensures Valid() && objects >= old(objects) && fresh(objects - old(objects))
      ensures |joins| == |list| && forall k :: 0 <= k < |list| ==> joins[k].id == list[k]
      ensures EachEnabled(old(Now()), joins) && Now() == ConnectEach(old(Now()), joins)
    {
      ghost var start := Now();
      joins := [];
      for k := 0 to |list|
        invariant Valid() && objects >= old(objects) && fresh(objects - old(objects))
        invariant |joins| == k && forall i :: 0 <= i < k ==> joins[i].id == list[i]
        invariant EachEnabled(start, joins) && Now() == ConnectEach(start, joins)
      {
        ghost var join := AskOne(list[k], can);
        EachSnoc(start, joins, join);
        joins := joins + [join];
      }
    }

    method AskLocal(url: string) returns (ghost local: Option<ServerConnection>)
      requires Valid()
      modifies this`connections, this`connecting, this`objects, this`streams, this`timers, this`posts, this`next,
               objects
      ensures Valid()
      ensures var e := RealtimeModel.ConnectLocal(url, local); Enabled(old(Now()), e) && Now() == Step(old(Now()), e)
    {
      ghost var before := Now();
      var made := ConnectLocal(url);
      local := made;
      LocalIs(before, url, local);
    }

    static lemma LocalIs(s: State, url: string, made: Option<ServerConnection>)
      requires New(s, made) && (made.Some? <==> CreatesLocal(s))
      ensures var e := RealtimeModel.ConnectLocal(url, made);
              Enabled(s, e) && Step(s, e) == DoConnectLocal(s, url, made)
    {
    }

    /** The online handler up to its first await (lines 57-60, 940-957): every listed server is asked in the order of
        the list, and with an empty list the local connection at once. */
    method HandleOnline(list: seq<string>, can: bool, url: string)
      returns (ghost joins: seq<Join>, ghost local: Option<ServerConnection>)
      requires Valid()
      modifies this`offline, this`connections, this`connecting, this`objects, this`streams, this`timers, this`posts,
               this`next, objects
      ensures Valid() && |joins| == |list| && forall k :: 0 <= k < |list| ==> joins[k].id == list[k]
      ensures EachEnabled(Step(old(Now()), GoOnline), joins)
      ensures Now() == AfterTurn(old(Now()), Online(joins, url, local))
    {
      offline, local := false, None;
      assert Now() == Step(old(Now()), GoOnline);
      joins := AskEach(list, can);
      if |list| == 0 && localToken {
        local := AskLocal(url);
      }
    }

    static lemma {:induction false} EachSnoc(s: State, joins: seq<Join>, j: Join)
      requires EachEnabled(s, joins) && Enabled(ConnectEach(s, joins), Ask(j))
      ensures EachEnabled(s, joins + [j]) && ConnectEach(s, joins + [j]) == Step(ConnectEach(s, joins), Ask(j))
      decreases |joins|
    {
      if joins == [] {
        assert [j][1..] == [];
        assert joins + [j] == [j];
      } else {
        assert (joins + [j])[1..] == joins[1..] + [j];
        EachSnoc(Step(s, Ask(joins[0])), joins[1..], j);
      }
    }
  }
}
