/**
 The realtime-v2 connection protocol of client/src/lib/connectionManager.ts as a state machine.

 A State is everything the manager, the browser and the servers hold between two steps.  An Event
 is one step: a call into the manager, a continuation after an await, a stream or timer callback,
 or a change of the outside world.  Any sequence of events is a run, so a statement about every run
 covers every interleaving.  Turns of several steps are those of RealtimeOnline.
 */
module RealtimeModel {
  import opened Options
  import opened Numbers

  const LOCAL_SERVER_ID := "__local__"

  /** What setTimeout, EventSource and a pending request are known by. */
  type Handle = nat

  /** The connection record of lines 21-42.  Its identity matters (`isCurrentConnection`); the
      values of its fields at one moment are a Conn. */
  class ServerConnection {
    const serverId: string
    const serverUrl: string
    var eventSource: Option<Handle>
    var sessionId: Option<string>
    var realtimeCursor: Option<int>
    var reconnectAttempts: nat
    var reconnectTimer: Option<Handle>
    var allowReconnect: bool
    var connected: bool
    var connecting: bool
    // What has been passed to handlePayload, in order, and the cursor this connection began from.
    var handled: seq<Entry>
    var origin: Option<int>

    constructor (serverId: string, serverUrl: string)
      ensures View() == NewConn(serverId, serverUrl)
    {
      this.serverId, this.serverUrl := serverId, serverUrl;
      eventSource, sessionId, realtimeCursor := None, None, None;
      reconnectAttempts, reconnectTimer := 0, None;
      allowReconnect, connected, connecting := true, false, false;
      handled, origin := [], None;
    }

    function View(): Conn
      reads this
    {
      Conn(serverId, serverUrl, eventSource, sessionId, realtimeCursor, reconnectAttempts, reconnectTimer,
           allowReconnect, connected, connecting, handled, origin)
    }
  }

  datatype Conn = Conn(
    serverId: string, serverUrl: string, source: Option<Handle>, session: Option<string>, cursor: Option<int>,
    attempts: nat, timer: Option<Handle>, allow: bool, connected: bool, connecting: bool,
    handled: seq<Entry>, origin: Option<int>)

  function NewConn(id: string, url: string): Conn {
    Conn(id, url, None, None, None, 0, None, true, false, false, [], None)
  }

  /** The gateway payloads that can travel on a realtime-v2 stream (op 0, 7, 9 and 11). */
  datatype Op =
    | Ready(session: Option<string>)
    | Dispatch(name: string)
    | Reconnect
    | InvalidSession
    | HeartbeatAck

  datatype Entry = Entry(id: nat, op: Op)

  /** An EventSource: who created it, whether close() has not been called yet, and the id after which the
      server is sending.  -1 stands for the very beginning. */
  datatype Stream = Stream(conn: ServerConnection, open: bool, after: int)

  datatype Timer = Timer(conn: ServerConnection, delay: nat)

  /** An entry of the server list: its URL and whether a token is stored for it. */
  datatype Server = Server(url: string, token: bool)

  /** The `connecting` map: a task still waiting for authentication, or one that has finished and is
      removed by its `finally` in a later microtask. */
  datatype Task = Authenticating(url: string) | Settled

  datatype Reply =
    | SessionOk(session: Option<string>, cursor: Option<nat>)
    | OpenFailed(session: Option<string>, cursor: Option<nat>)   // answered, but `new EventSource` throws
    | SessionFailed

  datatype State = State(
    conns: map<ServerConnection, Conn>,           // every connection object ever created
    connections: map<string, ServerConnection>,   // the manager's map of live connections
    inFlight: map<string, Task>,                  // the manager's `connecting` map
    offline: bool,
    servers: map<string, Server>,
    localToken: bool,
    posts: map<Handle, ServerConnection>,         // session requests awaiting an answer
    streams: map<Handle, Stream>,                 // every EventSource ever created
    timers: map<Handle, Timer>,                   // pending setTimeout callbacks
    next: Handle,
    logs: map<string, seq<Entry>>)                // per normalized URL, what the server has emitted

  const Init := State(map[], map[], map[], false, map[], false, map[], map[], map[], 0, map[])

  // ---- Helpers ----

  /** `url.replace(/\/+$/, '')` */
  function Normalize(url: string): string {
    if url != [] && url[|url| - 1] == '/' then Normalize(url[..|url| - 1]) else url
  }

  function Log(s: State, url: string): seq<Entry> {
    if Normalize(url) in s.logs then s.logs[Normalize(url)] else []
  }

  /** How many entries at the front of the log have an id of at most k. */
  function UpTo(log: seq<Entry>, k: int): (n: nat)
    ensures n <= |log|
    ensures forall i :: 0 <= i < n ==> log[i].id <= k
    ensures n < |log| ==> log[n].id > k
  {
    if log == [] || log[0].id > k then 0 else 1 + UpTo(log[1..], k)
  }

  predicate Current(s: State, c: ServerConnection) {
    c in s.conns && s.conns[c].serverId in s.connections && s.connections[s.conns[c].serverId] == c
  }

  predicate HasToken(s: State, id: string) {
    if id == LOCAL_SERVER_ID then s.localToken else id in s.servers && s.servers[id].token
  }

  predicate Busy(v: Conn) {
    v.connecting || v.source.Some?
  }

  /** Another live connection to the same URL already has, or is getting, a stream (lines 447-452). */
  predicate Covered(s: State, c: ServerConnection)
    requires c in s.conns
  {
    exists id | id in s.connections ::
      && s.connections[id] != c
      && s.connections[id] in s.conns
      && Normalize(s.conns[s.connections[id]].serverUrl) == Normalize(s.conns[c].serverUrl)
      && Busy(s.conns[s.connections[id]])
  }

  function Min(a: int, b: int): int { if a <= b then a else b }

  /** The delay before a retry when `attempt` retries were made before (lines 885-904). */
  function Backoff(attempt: nat): nat {
    if attempt == 0 then 0 else Min(1000 * Pow2(Min(attempt - 1, 5)), 30000)
  }

  /** The state with one connection's fields replaced. */
  function Put(s: State, c: ServerConnection, v: Conn): (r: State)
    ensures c in r.conns && r.conns[c] == v
  {
    s.(conns := s.conns[c := v])
  }

  // ---- The manager's private methods ----

  /** `conn.eventSource?.close(); conn.eventSource = null` */
  function CloseSource(s: State, c: ServerConnection): (r: State)
    requires c in s.conns
    ensures c in r.conns
  {
    Put(s, c, s.conns[c].(source := None)).(streams := Closed(s.streams, s.conns[c].source))
  }

  function Closed(streams: map<Handle, Stream>, source: Option<Handle>): map<Handle, Stream> {
    if source.Some? && source.value in streams then streams[source.value := streams[source.value].(open := false)]
    else streams
  }

  function ClearTimer(s: State, c: ServerConnection): (r: State)
    requires c in s.conns
    ensures c in r.conns
  {
    Put(s, c, s.conns[c].(timer := None))
    .(timers := if s.conns[c].timer.Some? then s.timers - {s.conns[c].timer.value} else s.timers)
  }

  /** Lines 466-484: the session request goes out. */
  function StartSession(s: State, c: ServerConnection): State
    requires c in s.conns
  {
    Put(s, c, s.conns[c].(connecting := true, allow := true)).(posts := s.posts[s.next := c], next := s.next + 1)
  }

  /** connectRealtimeSse, up to the point where it awaits the session request (lines 427-484). */
  function ConnectRealtimeSse(s: State, c: ServerConnection): State
    requires c in s.conns
  {
    if !Current(s, c) || Busy(s.conns[c]) || !HasToken(s, s.conns[c].serverId) then s
    else if Covered(s, c) then Put(s, c, s.conns[c].(connected := true, connecting := false))
    else StartSession(ClearTimer(s, c), c)
  }

  /** connectRealtime with realtime-v2 on (lines 405-418). */
  function ConnectRealtime(s: State, c: ServerConnection): State
    requires c in s.conns
  {
    ConnectRealtimeSse(CloseSource(s, c), c)
  }

  /** Lines 885-904: a retry is scheduled. */
  function StartRetry(s: State, c: ServerConnection): State
    requires c in s.conns
  {
    Put(s, c, s.conns[c].(attempts := s.conns[c].attempts + 1, timer := Some(s.next)))
    .(timers := s.timers[s.next := Timer(c, Backoff(s.conns[c].attempts))], next := s.next + 1)
  }

  /** reconnectGateway (lines 875-906). */
  function ReconnectGateway(s: State, c: ServerConnection): State
    requires c in s.conns
  {
    if !s.conns[c].allow || s.conns[c].timer.Some? || !Current(s, c) || s.offline then s else StartRetry(s, c)
  }

  /** Marks the connection down and retries: the common tail of an error, a RECONNECT and an
      INVALID_SESSION. */
  function DropAndRetry(s: State, c: ServerConnection): State
    requires c in s.conns
  {
    var s1 := CloseSource(s, c);
    ReconnectGateway(Put(s1, c, s1.conns[c].(connected := false, connecting := false)), c)
  }

  /** handlePayload restricted to the realtime-v2 path (lines 676-720, 752-761). */
  function HandlePayload(s: State, c: ServerConnection, op: Op): State
    requires c in s.conns
  {
    match op
    case Ready(session) => Put(s, c, s.conns[c].(session := session, attempts := 0))
    case Dispatch(_) => s
    case HeartbeatAck => s
    case Reconnect => DropAndRetry(s, c)
    case InvalidSession => DropAndRetry(Put(s, c, s.conns[c].(session := None)), c)
  }

  // ---- Events ----

  datatype Event =
    | ConnectServer(id: string, canUseChallengeAuth: bool, made: Option<ServerConnection>)
    | AuthDone(id: string, ok: bool, made: Option<ServerConnection>)
    | ConnectLocal(url: string, made: Option<ServerConnection>)
    | TaskSettled(id: string)
    | PostDone(post: Handle, reply: Reply)
    | StreamOpen(h: Handle)
    | StreamMessage(h: Handle)
    | StreamError(h: Handle)
    | TimerFires(t: Handle)
    | DisconnectServer(id: string)
    | GoOffline
    | GoOnline
    | SetServer(id: string, server: Server)
    | RemoveServer(id: string)
    | SetLocalToken(present: bool)
    | ServerEmits(url: string, entry: Entry)

  /** The object a call makes, if it makes one, is not yet known. */
  predicate New(s: State, made: Option<ServerConnection>) { made.Some? ==> made.value !in s.conns }

  /** connectServer makes a new connection (lines 146-149, 256-264, 291). */
  predicate Creates(s: State, id: string) {
    id !in s.inFlight && id !in s.connections && id in s.servers && s.servers[id].token
  }

  predicate CreatesLocal(s: State) {
    LOCAL_SERVER_ID !in s.inFlight && LOCAL_SERVER_ID !in s.connections && s.localToken
  }

  /** The events that can happen in a state: a call makes an object exactly when it needs one, a callback belongs to
      something that was created, and a server numbers what it emits upwards. */
  predicate Enabled(s: State, e: Event) {
    match e
    case ConnectServer(id, _, made) => New(s, made) && (made.Some? <==> Creates(s, id))
    case AuthDone(id, ok, made) =>
      id in s.inFlight && s.inFlight[id].Authenticating? && New(s, made) && (made.Some? <==> ok)
    case ConnectLocal(_, made) => New(s, made) && (made.Some? <==> CreatesLocal(s))
    case TaskSettled(id) => id in s.inFlight && s.inFlight[id].Settled?
    case PostDone(p, _) => p in s.posts && s.posts[p] in s.conns
    case StreamOpen(h) => h in s.streams && s.streams[h].conn in s.conns
    case StreamMessage(h) => h in s.streams && s.streams[h].conn in s.conns
    case StreamError(h) => h in s.streams && s.streams[h].conn in s.conns
    case TimerFires(t) => t in s.timers && s.timers[t].conn in s.conns
    case DisconnectServer(id) => id in s.connections ==> s.connections[id] in s.conns
    case ServerEmits(url, entry) =>
      var log := Log(s, url);
      log != [] ==> log[|log| - 1].id < entry.id
    case _ => true
  }

  /** Lines 299-321 and 229-251: a new record goes into the map. */
  function Insert(s: State, id: string, url: string, made: ServerConnection): (r: State)
    ensures made in r.conns
  {
    Put(s, made, NewConn(id, url)).(connections := s.connections[id := made])
  }

  function CreateConnection(s: State, id: string, url: string, made: ServerConnection): State {
    ConnectRealtime(Insert(s, id, url, made), made)
  }

  /** An existing record is asked to connect again (lines 207-211, 257-261). */
  function Rejoin(s: State, id: string): State
    requires id in s.connections && s.connections[id] in s.conns
  {
    var c := s.connections[id];
    ConnectRealtime(Put(s, c, s.conns[c].(allow := true)), c)
  }

  /** connectServer and the part of connectServerInternal before its first await (lines 146-325). */
  function DoConnectServer(s: State, id: string, canUseChallengeAuth: bool,
                           made: Option<ServerConnection>): State {
    if id in s.inFlight then s
    else if id in s.connections then
      if s.connections[id] in s.conns then var s1 := Rejoin(s, id); s1.(inFlight := s1.inFlight[id := Settled]) else s
    else if id !in s.servers then s.(inFlight := s.inFlight[id := Settled])
    else if !s.servers[id].token then
      s.(inFlight := s.inFlight[id := if canUseChallengeAuth then Authenticating(s.servers[id].url) else Settled])
    else if made.None? then s
    else
      var s1 := CreateConnection(s, id, s.servers[id].url, made.value);
      s1.(inFlight := s1.inFlight[id := Settled])
  }

  /** connectServerInternal after authenticate (lines 295-325, 376-395). */
  function DoAuthDone(s: State, id: string, ok: bool, made: Option<ServerConnection>): State
    requires id in s.inFlight && s.inFlight[id].Authenticating?
  {
    var url := s.inFlight[id].url;
    var s0 := s.(inFlight := s.inFlight[id := Settled]);
    if !ok || made.None? then s0
    else
      var servers := if id in s.servers then s.servers[id := s.servers[id].(token := true)] else s.servers;
      CreateConnection(s0.(localToken := true, servers := servers), id, url, made.value)
  }

  /** connectLocal and connectLocalInternal (lines 165-253). */
  function DoConnectLocal(s: State, url: string, made: Option<ServerConnection>): State {
    if LOCAL_SERVER_ID in s.inFlight then s
    else
      var s1 :=
        if !s.localToken then s
        else if LOCAL_SERVER_ID in s.connections then
          if s.connections[LOCAL_SERVER_ID] in s.conns then Rejoin(s, LOCAL_SERVER_ID) else s
        else if made.None? then s
        else CreateConnection(s, LOCAL_SERVER_ID, url, made.value);
      s1.(inFlight := s1.inFlight[LOCAL_SERVER_ID := Settled])
  }

  /** The id after which a new stream starts: the supplied cursor, or the live end without one. */
  function StreamStart(s: State, c: ServerConnection): int
    requires c in s.conns
  {
    match s.conns[c].cursor
    case Some(k) => k
    case None => var log := Log(s, s.conns[c].serverUrl); if log == [] then -1 else log[|log| - 1].id
  }

  /** Lines 487-492: the first cursor a connection is ever given is the only one it takes from a session. */
  function AdoptSession(v: Conn, session: Option<string>, cursor: Option<nat>): Conn {
    var v1 := if session.Some? && session.value != "" then v.(session := session) else v;
    if cursor.Some? && v1.cursor.None? then v1.(cursor := cursor, origin := cursor) else v1
  }

  /** Lines 494-507 */
  function OpenStream(s: State, c: ServerConnection): State
    requires c in s.conns
  {
    Put(s, c, s.conns[c].(source := Some(s.next)))
    .(streams := s.streams[s.next := Stream(c, true, StreamStart(s, c))], next := s.next + 1)
  }

  /** Lines 567-577: the session request, or opening the stream, failed. */
  function SessionLost(s: State, c: ServerConnection): State
    requires c in s.conns
  {
    ReconnectGateway(Put(s, c, s.conns[c].(connecting := false, connected := false)), c)
  }

  /** The rest of connectRealtimeSse once the session request has been answered (lines 485-578). */
  function DoPostDone(s: State, p: Handle, reply: Reply): State
    requires p in s.posts && s.posts[p] in s.conns
  {
    var c := s.posts[p];
    var s0 := s.(posts := s.posts - {p});
    if !Current(s0, c) then s0
    else match reply
      case SessionOk(session, cursor) =>
        if !s0.conns[c].allow then s0
        else OpenStream(Put(s0, c, AdoptSession(s0.conns[c], session, cursor)), c)
      case OpenFailed(session, cursor) =>
        if !s0.conns[c].allow then s0 else SessionLost(Put(s0, c, AdoptSession(s0.conns[c], session, cursor)), c)
      case SessionFailed => SessionLost(s0, c)
  }

  /** es.onopen (lines 509-523). */
  function DoStreamOpen(s: State, h: Handle): State
    requires h in s.streams && s.streams[h].conn in s.conns
  {
    var c := s.streams[h].conn;
    if !Current(s, c) || s.conns[c].source != Some(h) then s.(streams := s.streams[h := s.streams[h].(open := false)])
    else Put(s, c, s.conns[c].(connecting := false, connected := true, attempts := 0))
  }

  /** Lines 528-532 on the record: the cursor moves to the entry before the entry is handled. */
  function Take(v: Conn, entry: Entry, after: int): Conn {
    v.(cursor := Some(entry.id), handled := v.handled + [entry],
       origin := if v.origin.Some? then v.origin else Some(after))
  }

  /** Lines 526-532: the entry reaches the connection that holds the stream. */
  function Received(s: State, h: Handle, entry: Entry): (r: State)
    requires h in s.streams && s.streams[h].conn in s.conns
    ensures s.streams[h].conn in r.conns
  {
    var st := s.streams[h];
    Put(s, st.conn, Take(s.conns[st.conn], entry, st.after))
    .(streams := s.streams[h := st.(after := entry.id)])
  }

  /** handleRealtimeEvent for the next entry after the stream's position (lines 525-544). */
  function DoStreamMessage(s: State, h: Handle): State
    requires h in s.streams && s.streams[h].conn in s.conns
  {
    var c := s.streams[h].conn;
    if !Current(s, c) || s.conns[c].source != Some(h) then s
    else
      var log := Log(s, s.conns[c].serverUrl);
      var n := UpTo(log, s.streams[h].after);
      if n == |log| then s else HandlePayload(Received(s, h, log[n]), c, log[n].op)
  }

  /** es.onerror (lines 545-566). */
  function DoStreamError(s: State, h: Handle): State
    requires h in s.streams && s.streams[h].conn in s.conns
  {
    var c := s.streams[h].conn;
    if !Current(s, c) || s.conns[c].source != Some(h) then s else DropAndRetry(s, c)
  }

  /** The setTimeout callbacks of lines 890-903. */
  function DoTimerFires(s: State, t: Handle): State
    requires t in s.timers && s.timers[t].conn in s.conns
  {
    var c := s.timers[t].conn;
    var s1 := Put(s, c, s.conns[c].(timer := None)).(timers := s.timers - {t});
    if !s1.conns[c].allow || !Current(s1, c) then s1 else ConnectRealtime(s1, c)
  }

  /** disconnectServer (lines 916-937). */
  function DoDisconnect(s: State, id: string): State
    requires id in s.connections ==> s.connections[id] in s.conns
  {
    if id !in s.connections then s
    else
      var c := s.connections[id];
      var s1 := CloseSource(ClearTimer(s, c), c);
      Put(s1, c, s1.conns[c].(allow := false, connecting := false, connected := false))
      .(connections := s1.connections - {id})
  }

  function Step(s: State, e: Event): State {
    if !Enabled(s, e) then s
    else match e
      case ConnectServer(id, can, made) => DoConnectServer(s, id, can, made)
      case AuthDone(id, ok, made) => DoAuthDone(s, id, ok, made)
      case ConnectLocal(url, made) => DoConnectLocal(s, url, made)
      case TaskSettled(id) => s.(inFlight := s.inFlight - {id})
      case PostDone(p, reply) => DoPostDone(s, p, reply)
      case StreamOpen(h) => DoStreamOpen(s, h)
      case StreamMessage(h) => DoStreamMessage(s, h)
      case StreamError(h) => DoStreamError(s, h)
      case TimerFires(t) => DoTimerFires(s, t)
      case DisconnectServer(id) => DoDisconnect(s, id)
      case GoOffline => s.(offline := true)
      case GoOnline => s.(offline := false)
      case SetServer(id, server) => s.(servers := s.servers[id := server])
      case RemoveServer(id) => s.(servers := s.servers - {id})
      case SetLocalToken(b) => s.(localToken := b)
      case ServerEmits(url, entry) => s.(logs := s.logs[Normalize(url) := Log(s, url) + [entry]])
  }

  /** The state after a run, the events taken in order. */
  function Run(s: State, events: seq<Event>): State
    decreases |events|
  {
    if events == [] then s else Step(Run(s, events[..|events| - 1]), events[|events| - 1])
  }
}
