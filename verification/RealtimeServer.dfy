/**
 The repository's own server (crates/paracord-api/src/routes/realtime.rs over the event bus of
 crates/paracord-core/src/events.rs) with the client of RealtimeModel in front of it, for one user.

 A stream registers its session when its request arrives and gets a bounded queue.  A publish goes into the queue of
 the stream that is registered for each session; a queue that is full loses its oldest event.  The server sends a
 READY numbered 1, then what is queued, numbered on from the supplied cursor.  A stream that is no longer registered
 ends once its queue is empty: the registration held the only sender.  When a stream ends, or the server notices that
 its client is gone, the queue goes with everything in it and the session is unregistered, even if a newer stream has
 registered it since.
 */
module RealtimeServer {
  import opened Options
  import opened RealtimeModel
  import opened RealtimeSafety
  import opened RealtimeResume

  datatype ServerStream = ServerStream(session: string, sequence: nat, hello: bool, lagged: bool, queue: seq<string>)

  /** The client's record and the streams it asked for, and the server's. */
  datatype World = World(
    client: Conn,
    next: Handle,
    requests: map<Handle, (string, nat)>,    // asked for with a session and a cursor, not yet arrived
    streams: map<Handle, ServerStream>,
    registry: map<string, Handle>,           // the stream each session is registered for
    capacity: nat,
    published: seq<string>)

  datatype Turn =
    | Connect(session: string)               // a session request was answered and the client opens a stream
    | Arrive(h: Handle)                      // stream_events registers it
    | Publish(name: string)
    | Poll(h: Handle)                        // the server sends what is next on the stream, or ends it
    | Fail                                   // the client's stream errors
    | Gone(h: Handle)                        // the server drops the stream, its client being gone

  function Begin(id: string, url: string, capacity: nat): World {
    World(NewConn(id, url), 0, map[], map[], map[], capacity, [])
  }

  function CursorOf(v: Conn): nat {
    if v.cursor.Some? && v.cursor.value >= 0 then v.cursor.value else 0
  }

  /** Lines 487-507 of the client, for create_session's answer: the session and cursor 0. */
  function DoConnect(w: World, session: string): World {
    var v := AdoptSession(w.client, Some(session), Some(0)).(source := Some(w.next));
    w.(client := v, next := w.next + 1, requests := w.requests[w.next := (session, CursorOf(v))])
  }

  function DoArrive(w: World, h: Handle): World
    requires h in w.requests
  {
    var (session, cursor) := w.requests[h];
    w.(requests := w.requests - {h}, registry := w.registry[session := h],
       streams := w.streams[h := ServerStream(session, cursor, true, false, [])])
  }

  predicate Registered(w: World, h: Handle) {
    h in w.streams && w.streams[h].session in w.registry && w.registry[w.streams[h].session] == h
  }

  function Queued(st: ServerStream, name: string, capacity: nat): ServerStream {
    if |st.queue| < capacity then st.(queue := st.queue + [name])
    else if st.queue == [] then st.(lagged := true)
    else st.(queue := st.queue[1..] + [name], lagged := true)
  }

  function DoPublish(w: World, name: string): World {
    w.(published := w.published + [name],
       streams := map h | h in w.streams ::
                    if Registered(w, h) then Queued(w.streams[h], name, w.capacity) else w.streams[h])
  }

  /** Lines 199-290: READY first, then a RECONNECT if events were lost in the queue, then the queue. */
  function NextPayload(st: ServerStream): Option<Entry> {
    if st.hello then Some(Entry(1, Ready(Some(st.session))))
    else if st.lagged then Some(Entry(st.sequence + 1, Reconnect))
    else if st.queue != [] then Some(Entry(st.sequence + 1, Dispatch(st.queue[0])))
    else None
  }

  function Sent(st: ServerStream): ServerStream {
    if st.hello then st.(hello := false)
    else if st.lagged then st.(lagged := false, sequence := st.sequence + 1)
    else if st.queue != [] then st.(queue := st.queue[1..], sequence := st.sequence + 1)
    else st
  }

  /** What the client's record becomes: the cursor and the history first, then the payload. */
  function Handled(v: Conn, entry: Entry): Conn {
    var t := Take(v, entry, 0);
    match entry.op
    case Ready(session) => t.(session := session, attempts := 0)
    case Reconnect => t.(source := None, connected := false, connecting := false)
    case InvalidSession => t.(session := None, source := None, connected := false, connecting := false)
    case _ => t
  }

  function Closed(v: Conn): Conn {
    v.(source := None, connected := false, connecting := false)
  }

  /** Lines 137-143: a stream that is dropped unregisters its session, whichever stream that is registered for. */
  function Dropped(w: World, h: Handle): World
    requires h in w.streams
  {
    w.(streams := w.streams - {h}, registry := w.registry - {w.streams[h].session})
  }

  /** A stream with nothing to send waits while it is registered; otherwise nothing can come any more, and it ends. */
  function DoPoll(w: World, h: Handle): World
    requires h in w.streams
  {
    match NextPayload(w.streams[h])
    case None =>
      if Registered(w, h) then w
      else Dropped(w, h).(client := if w.client.source == Some(h) then Closed(w.client) else w.client)
    case Some(entry) =>
      w.(streams := w.streams[h := Sent(w.streams[h])],
         client := if w.client.source == Some(h) then Handled(w.client, entry) else w.client)
  }

  function Next(w: World, t: Turn): World {
    match t
    case Connect(session) => if w.client.source.Some? || session == "" then w else DoConnect(w, session)
    case Arrive(h) => if h in w.requests then DoArrive(w, h) else w
    case Publish(name) => DoPublish(w, name)
    case Poll(h) => if h in w.streams then DoPoll(w, h) else w
    case Fail => w.(client := Closed(w.client))
    case Gone(h) => if h in w.streams then Dropped(w, h) else w
  }

  function Play(w: World, turns: seq<Turn>): World
    decreases |turns|
  {
    if turns == [] then w else Next(Play(w, turns[..|turns| - 1]), turns[|turns| - 1])
  }

  /** The parts of a record that matter here. */
  predicate Alike(v: Conn, w: Conn) {
    v.cursor == w.cursor && v.handled == w.handled && v.origin == w.origin && v.session == w.session
    && v.source == w.source
  }

  lemma RetryAlike(s: State, c: ServerConnection)
    requires c in s.conns
    ensures c in ReconnectGateway(s, c).conns && Alike(ReconnectGateway(s, c).conns[c], s.conns[c])
  {
  }

  lemma DropAlike(s: State, c: ServerConnection)
    requires c in s.conns
    ensures c in DropAndRetry(s, c).conns && Alike(DropAndRetry(s, c).conns[c], s.conns[c].(source := None))
  {
    var s1 := CloseSource(s, c);
    RetryAlike(Put(s1, c, s1.conns[c].(connected := false, connecting := false)), c);
  }

  /** The client here is the one of RealtimeModel: its handler leaves the same cursor, history, session and stream. */
  lemma ClientAgrees(s: State, h: Handle, c: ServerConnection, entry: Entry)
    requires h in s.streams && s.streams[h].conn == c && c in s.conns && s.conns[c].origin.Some?
    ensures var r := HandlePayload(Received(s, h, entry), c, entry.op);
            c in r.conns && Alike(r.conns[c], Handled(s.conns[c], entry))
  {
    var s1 := Received(s, h, entry);
    assert s1.conns[c] == Take(s.conns[c], entry, 0);
    match entry.op
    case Reconnect => DropAlike(s1, c);
    case InvalidSession => DropAlike(Put(s1, c, s1.conns[c].(session := None)), c);
    case _ =>
  }

  // ---- What reaches the client ----

  /** The names of the events among the handled payloads. */
  function Dispatched(handled: seq<Entry>): seq<string> {
    if handled == [] then []
    else
      var last := handled[|handled| - 1];
      Dispatched(handled[..|handled| - 1]) + if last.op.Dispatch? then [last.op.name] else []
  }

  /** What is queued on the client's own stream. */
  function Waiting(w: World): seq<string> {
    if w.client.source.Some? && w.client.source.value in w.streams then w.streams[w.client.source.value].queue else []
  }

  /** An event is lost: it is published while the client's own stream is not registered or its queue is full, or the
      queue of the client's stream goes with the stream. */
  predicate Loses(w: World, t: Turn) {
    match t
    case Publish(_) =>
      !(w.client.source.Some? && Registered(w, w.client.source.value)
        && |w.streams[w.client.source.value].queue| < w.capacity)
    case Poll(h) =>
      && w.client.source == Some(h) && h in w.streams && Waiting(w) != []
      && NextPayload(w.streams[h]).Some? && NextPayload(w.streams[h]).value.op.Reconnect?
    case Fail => Waiting(w) != []
    case Gone(h) => w.client.source == Some(h) && Waiting(w) != []
    case _ => false
  }

  predicate NothingLost(w: World, turns: seq<Turn>)
    decreases |turns|
  {
    turns == [] ||
    (NothingLost(w, turns[..|turns| - 1]) && !Loses(Play(w, turns[..|turns| - 1]), turns[|turns| - 1]))
  }

  /** Handles are used once. */
  ghost predicate HandlesOk(w: World) {
    && (forall h :: h in w.requests ==> h < w.next && h !in w.streams)
    && (forall h :: h in w.streams ==> h < w.next)
    && (w.client.source.Some? ==> w.client.source.value < w.next)
  }

  lemma NextHandles(w: World, t: Turn)
    requires HandlesOk(w)
    ensures HandlesOk(Next(w, t))
  {
  }

  /** How many events have neither reached the client nor wait for it. */
  function Missing(w: World): int {
    |w.published| - |Dispatched(w.client.handled)| - |Waiting(w)|
  }

  ghost predicate Complete(w: World) {
    Dispatched(w.client.handled) + Waiting(w) == w.published
  }

  lemma DispatchedSnoc(handled: seq<Entry>, e: Entry)
    ensures Dispatched(handled + [e]) == Dispatched(handled) + if e.op.Dispatch? then [e.op.name] else []
  {
    assert (handled + [e])[..|handled|] == handled;
  }

  lemma OwnPollCounts(v: Conn, st: ServerStream, entry: Entry)
    requires NextPayload(st) == Some(entry)
    ensures var d, d' := Dispatched(v.handled), Dispatched(Handled(v, entry).handled);
            if entry.op.Dispatch? then d' + Sent(st).queue == d + st.queue else d' == d && Sent(st).queue == st.queue
    ensures Handled(v, entry).source == if entry.op.Reconnect? then None else v.source
  {
    HandledAs(v, entry);
    DispatchedSnoc(v.handled, entry);
    if entry.op.Dispatch? {
      var d := Dispatched(v.handled);
      assert Sent(st).queue == st.queue[1..] && entry.op.name == st.queue[0];
      assert d + [st.queue[0]] + st.queue[1..] == d + st.queue;
    }
  }

  lemma HandledAs(v: Conn, entry: Entry)
    ensures var r := Handled(v, entry);
            && r.handled == v.handled + [entry] && r.cursor == Some(entry.id)
            && r.origin == (if v.origin.Some? then v.origin else Some(0))
            && r.source == (if entry.op.Reconnect? || entry.op.InvalidSession? then None else v.source)
  {
  }

  lemma PollCounts(w: World, h: Handle)
    requires HandlesOk(w) && h in w.streams
    ensures Missing(DoPoll(w, h)) >= Missing(w)
    ensures Missing(DoPoll(w, h)) > Missing(w) <==> Loses(w, Poll(h))
    ensures Complete(w) && !Loses(w, Poll(h)) ==> Complete(DoPoll(w, h))
  {
    if w.client.source == Some(h) {
      if NextPayload(w.streams[h]).Some? {
        OwnStreamCounts(w, h, NextPayload(w.streams[h]).value);
      }
    } else {
      assert Waiting(DoPoll(w, h)) == Waiting(w);
    }
  }

  lemma OwnStreamCounts(w: World, h: Handle, entry: Entry)
    requires h in w.streams && w.client.source == Some(h) && NextPayload(w.streams[h]) == Some(entry)
    ensures var r := DoPoll(w, h);
            if entry.op.Reconnect? && Waiting(w) != []
            then Missing(r) > Missing(w)
            else Missing(r) == Missing(w) && (Complete(w) ==> Complete(r))
  {
    OwnPollCounts(w.client, w.streams[h], entry);
    var r := DoPoll(w, h);
    assert r.client == Handled(w.client, entry);
    if entry.op.Reconnect? {
      assert Waiting(r) == [];
    } else {
      assert Waiting(r) == Sent(w.streams[h]).queue;
    }
  }

  lemma PublishCounts(w: World, name: string)
    requires HandlesOk(w)
    ensures var r, lost := DoPublish(w, name), Loses(w, Publish(name));
            && Missing(r) == Missing(w) + (if lost then 1 else 0)
            && (Complete(w) && !lost ==> Complete(r))
  {
    var r := DoPublish(w, name);
    if !Loses(w, Publish(name)) {
      assert Waiting(r) == Waiting(w) + [name];
      assert Dispatched(w.client.handled) + (Waiting(w) + [name])
             == Dispatched(w.client.handled) + Waiting(w) + [name];
    }
  }

  lemma NextCounts(w: World, t: Turn)
    requires HandlesOk(w)
    ensures Missing(Next(w, t)) >= Missing(w)
    ensures Missing(Next(w, t)) > Missing(w) <==> Loses(w, t)
    ensures Complete(w) && !Loses(w, t) ==> Complete(Next(w, t))
  {
    match t
    case Publish(name) => PublishCounts(w, name);
    case Poll(h) => if h in w.streams { PollCounts(w, h); }
    case _ =>
  }

  lemma {:induction false} PlayHandles(w: World, turns: seq<Turn>)
    requires HandlesOk(w)
    ensures HandlesOk(Play(w, turns))
    decreases |turns|
  {
    if turns != [] {
      PlayHandles(w, turns[..|turns| - 1]);
      NextHandles(Play(w, turns[..|turns| - 1]), turns[|turns| - 1]);
    }
  }

  lemma {:induction false} CompleteIffNothingLost(id: string, url: string, capacity: nat, turns: seq<Turn>)
    ensures var w := Play(Begin(id, url, capacity), turns);
            && Missing(w) >= 0 && (Complete(w) <==> NothingLost(Begin(id, url, capacity), turns))
            && (Missing(w) == 0 <==> Complete(w))
    decreases |turns|
  {
    var start := Begin(id, url, capacity);
    if turns != [] {
      var init, t := turns[..|turns| - 1], turns[|turns| - 1];
      CompleteIffNothingLost(id, url, capacity, init);
      PlayHandles(start, init);
      NextCounts(Play(start, init), t);
    }
  }

  /** With this server the client receives every event, in order, iff each is published while the client's own stream is
      registered with room in its queue, every queue is empty when its stream ends, and nothing is still queued. */
  lemma ReceivesAllIff(id: string, url: string, capacity: nat, turns: seq<Turn>)
    ensures var w := Play(Begin(id, url, capacity), turns);
            Dispatched(w.client.handled) == w.published
            <==> NothingLost(Begin(id, url, capacity), turns) && Waiting(w) == []
  {
    var w := Play(Begin(id, url, capacity), turns);
    CompleteIffNothingLost(id, url, capacity, turns);
    assert Dispatched(w.client.handled) + [] == Dispatched(w.client.handled);
  }

  // ---- Where the cursor goes back ----

  /** The client's stream counts on from the client's cursor, and after its READY from at least the cursor minus 1. */
  ghost predicate CursorOk(w: World) {
    && HandlesOk(w)
    && (w.client.cursor.Some? ==> w.client.origin.Some? && w.client.cursor.value >= 0)
    && (w.client.source.Some? ==>
          w.client.cursor.Some? && StreamCounts(w, w.client.source.value, w.client.cursor.value))
  }

  ghost predicate StreamCounts(w: World, h: Handle, cursor: int) {
    && (h in w.requests ==> w.requests[h].1 == cursor)
    && (h in w.streams ==>
          if w.streams[h].hello then w.streams[h].sequence == cursor else cursor <= w.streams[h].sequence + 1)
  }

  lemma PollCursor(w: World, h: Handle)
    requires CursorOk(w) && h in w.streams
    ensures CursorOk(DoPoll(w, h))
  {
    NextHandles(w, Poll(h));
    if w.client.source != Some(h) {
      assert DoPoll(w, h).client == w.client;
    } else if NextPayload(w.streams[h]).Some? {
      OwnPollCursor(w, h, NextPayload(w.streams[h]).value);
    }
  }

  lemma OwnPollCursor(w: World, h: Handle, entry: Entry)
    requires CursorOk(w) && h in w.streams && w.client.source == Some(h) && NextPayload(w.streams[h]) == Some(entry)
    requires HandlesOk(DoPoll(w, h))
    ensures CursorOk(DoPoll(w, h))
  {
    var r := DoPoll(w, h);
    HandledAs(w.client, entry);
    assert r.client == Handled(w.client, entry) && r.requests == w.requests && r.streams[h] == Sent(w.streams[h]);
    assert h !in r.requests && !r.streams[h].hello && entry.id <= r.streams[h].sequence + 1;
  }

  lemma NextCursor(w: World, t: Turn)
    requires CursorOk(w)
    ensures CursorOk(Next(w, t))
  {
    NextHandles(w, t);
    match t
    case Poll(h) => if h in w.streams { PollCursor(w, h); }
    case _ =>
  }

  lemma {:induction false} PlayCursor(id: string, url: string, capacity: nat, turns: seq<Turn>)
    ensures CursorOk(Play(Begin(id, url, capacity), turns))
    decreases |turns|
  {
    if turns != [] {
      PlayCursor(id, url, capacity, turns[..|turns| - 1]);
      NextCursor(Play(Begin(id, url, capacity), turns[..|turns| - 1]), turns[|turns| - 1]);
    }
  }

  /** READY reaches a client whose cursor is past 1. */
  predicate Rewinds(w: World, t: Turn) {
    && t.Poll? && w.client.source == Some(t.h) && t.h in w.streams && w.streams[t.h].hello
    && w.client.cursor.Some? && w.client.cursor.value > 1
  }

  /** Where CursorNeverGoesBack fails with this server: at every READY that finds the cursor past 1, and only there. */
  lemma CursorGoesBackIff(id: string, url: string, capacity: nat, turns: seq<Turn>, t: Turn)
    ensures var w := Play(Begin(id, url, capacity), turns);
            !CursorsKeep(w.client, Next(w, t).client) <==> Rewinds(w, t)
  {
    PlayCursor(id, url, capacity, turns);
    TurnRewindsIff(Play(Begin(id, url, capacity), turns), t);
  }

  lemma TurnRewindsIff(w: World, t: Turn)
    requires CursorOk(w)
    ensures !CursorsKeep(w.client, Next(w, t).client) <==> Rewinds(w, t)
  {
    match t
    case Poll(h) =>
      if h in w.streams && w.client.source == Some(h) && NextPayload(w.streams[h]).Some? {
        HandledAs(w.client, NextPayload(w.streams[h]).value);
      }
    case _ =>
  }

  // ---- Where exactly-once resume fails ----

  /** The first two payloads a client handles are both numbered 1. */
  ghost predicate FirstIds(w: World) {
    && CursorOk(w)
    && (|w.client.handled| >= 1 ==> w.client.handled[0].id == 1)
    && (|w.client.handled| >= 2 ==> w.client.handled[1].id == 1)
    && (w.client.handled == [] ==>
          && (w.client.cursor.Some? ==> w.client.cursor.value == 0 && w.client.origin == Some(0))
          && (w.client.source.Some? && w.client.source.value in w.streams ==> w.streams[w.client.source.value].hello))
    && (|w.client.handled| == 1 ==>
          && w.client.cursor == Some(1) && w.client.origin == Some(0)
          && (w.client.source.Some? && w.client.source.value in w.streams ==>
                w.streams[w.client.source.value].hello || w.streams[w.client.source.value].sequence == 0))
  }

  lemma NextFirstIds(w: World, t: Turn)
    requires FirstIds(w)
    ensures FirstIds(Next(w, t))
  {
    NextCursor(w, t);
    match t
    case Poll(h) => if h in w.streams { PollFirstIds(w, h); }
    case _ =>
  }

  lemma PollFirstIds(w: World, h: Handle)
    requires FirstIds(w) && h in w.streams
    ensures FirstIds(DoPoll(w, h))
  {
    PollCursor(w, h);
    if w.client.source != Some(h) {
      assert DoPoll(w, h).client == w.client;
    } else if NextPayload(w.streams[h]).Some? {
      OwnPollFirstIds(w, h, NextPayload(w.streams[h]).value);
    }
  }

  lemma OwnPollFirstIds(w: World, h: Handle, entry: Entry)
    requires FirstIds(w) && h in w.streams && w.client.source == Some(h) && NextPayload(w.streams[h]) == Some(entry)
    requires CursorOk(DoPoll(w, h))
    ensures FirstIds(DoPoll(w, h))
  {
    var v := w.client;
    assert Handled(v, entry).handled == v.handled + [entry] && Handled(v, entry).cursor == Some(entry.id);
    if v.handled == [] {
      assert w.streams[h].hello && entry.id == 1;
    } else if |v.handled| == 1 {
      assert entry.id == 1;
    }
  }

  lemma {:induction false} PlayFirstIds(id: string, url: string, capacity: nat, turns: seq<Turn>)
    ensures FirstIds(Play(Begin(id, url, capacity), turns))
    decreases |turns|
  {
    if turns != [] {
      PlayFirstIds(id, url, capacity, turns[..|turns| - 1]);
      NextFirstIds(Play(Begin(id, url, capacity), turns[..|turns| - 1]), turns[|turns| - 1]);
    }
  }

  lemma SegmentIncreases(log: seq<Entry>, a: nat, b: nat)
    requires Increasing(log) && a <= b <= |log|
    ensures Increasing(log[a..b])
  {
  }

  lemma HistoryIncreases(log: seq<Entry>, v: Conn)
    requires Increasing(log) && HistoryOk(log, v)
    ensures Increasing(v.handled)
  {
    if v.cursor.Some? {
      SegmentIncreases(log, UpTo(log, v.origin.value), UpTo(log, v.cursor.value));
    }
  }

  lemma OneExplained(v: Conn)
    requires |v.handled| <= 1
    requires v.handled == [] ==> (v.cursor == Some(0) && v.origin == Some(0)) || (v.cursor.None? && v.origin.None?)
    requires |v.handled| == 1 ==> v.handled[0].id == 1 && v.cursor == Some(1) && v.origin == Some(0)
    ensures Increasing(v.handled) && HistoryOk(v.handled, v)
  {
    if v.handled != [] {
      assert UpTo(v.handled, 0) == 0;
      assert UpTo(v.handled[1..], 1) == 0 && UpTo(v.handled, 1) == 1;
      assert v.handled[0..1] == v.handled;
    }
  }

  lemma NextOrigin(w: World, t: Turn)
    requires w.client.cursor.None? ==> w.client.origin.None?
    ensures Next(w, t).client.cursor.None? ==> Next(w, t).client.origin.None?
  {
  }

  lemma {:induction false} PlayOrigin(id: string, url: string, capacity: nat, turns: seq<Turn>)
    ensures var v := Play(Begin(id, url, capacity), turns).client; v.cursor.None? ==> v.origin.None?
    decreases |turns|
  {
    if turns != [] {
      PlayOrigin(id, url, capacity, turns[..|turns| - 1]);
      NextOrigin(Play(Begin(id, url, capacity), turns[..|turns| - 1]), turns[|turns| - 1]);
    }
  }

  /** Where ExactlyOnce fails with this server: from the second payload on, what a client has handled is a segment of
      no log whose numbers increase. */
  lemma LogExplainsIff(id: string, url: string, capacity: nat, turns: seq<Turn>)
    ensures var v := Play(Begin(id, url, capacity), turns).client;
            (exists log :: Increasing(log) && HistoryOk(log, v)) <==> |v.handled| <= 1
  {
    var v := Play(Begin(id, url, capacity), turns).client;
    PlayFirstIds(id, url, capacity, turns);
    PlayOrigin(id, url, capacity, turns);
    if |v.handled| <= 1 {
      OneExplained(v);
    } else {
      forall log | Increasing(log) && HistoryOk(log, v) ensures Increasing(v.handled) { HistoryIncreases(log, v); }
      assert !(v.handled[0].id < v.handled[1].id);
    }
  }

  function FailingRun(session: string, a: string, b: string, c: string): seq<Turn> {
    [Connect(session), Arrive(0), Poll(0), Publish(a), Poll(0), Publish(b), Poll(0), Fail, Publish(c),
     Connect(session), Arrive(1)]
  }

  /** One run with all of these failures: three payloads handled that no increasing log explains, an event lost, and a
      READY on its way that takes the cursor back from 2 to 1. */
  lemma ResumeFails(id: string, url: string, capacity: nat, session: string, a: string, b: string, c: string)
    requires capacity >= 1 && session != ""
    ensures var start, turns := Begin(id, url, capacity), FailingRun(session, a, b, c);
            var w := Play(start, turns);
            && |w.client.handled| == 3 && w.published == [a, b, c] && Dispatched(w.client.handled) == [a, b]
            && !NothingLost(start, turns)
            && (forall log :: !(Increasing(log) && HistoryOk(log, w.client)))
            && w.client.cursor == Some(2) && Next(w, Poll(1)).client.cursor == Some(1)
            && !CursorsKeep(w.client, Next(w, Poll(1)).client)
  {
    var turns := FailingRun(session, a, b, c);
    FailingRunPlays(Begin(id, url, capacity), session, a, b, c);
    FailingRunEnds(id, url, capacity, session, a, b, c);
    ReceivesAllIff(id, url, capacity, turns);
    LogExplainsIff(id, url, capacity, turns);
    CursorGoesBackIff(id, url, capacity, turns, Poll(1));
  }

  lemma FailingRunEnds(id: string, url: string, capacity: nat, session: string, a: string, b: string, c: string)
    requires capacity >= 1 && session != ""
    ensures var w1 := Next(Next(Next(Begin(id, url, capacity), Connect(session)), Arrive(0)), Poll(0));
            var w3 := Next(Next(Next(Next(w1, Publish(a)), Poll(0)), Publish(b)), Poll(0));
            var w := Next(Next(Next(Next(w3, Fail), Publish(c)), Connect(session)), Arrive(1));
            && |w.client.handled| == 3 && w.published == [a, b, c] && Dispatched(w.client.handled) == [a, b]
            && w.client.cursor == Some(2) && Waiting(w) == [] && Rewinds(w, Poll(1))
            && Next(w, Poll(1)).client.cursor == Some(1)
  {
    var w1 := Next(Next(Next(Begin(id, url, capacity), Connect(session)), Arrive(0)), Poll(0));
    FailingRunHalf(id, url, capacity, session, a, b);
    Reopens(Next(Next(Next(Next(w1, Publish(a)), Poll(0)), Publish(b)), Poll(0)), 0, 1, session, 2, c);
  }

  lemma FailingRunHalf(id: string, url: string, capacity: nat, session: string, a: string, b: string)
    requires capacity >= 1 && session != ""
    ensures var w1 := Next(Next(Next(Begin(id, url, capacity), Connect(session)), Arrive(0)), Poll(0));
            var w3 := Next(Next(Next(Next(w1, Publish(a)), Poll(0)), Publish(b)), Poll(0));
            && Idle(w3, 0, session, 2) && w3.client.cursor == Some(2) && w3.next == 1 && w3.published == [a, b]
            && |w3.client.handled| == 3 && Dispatched(w3.client.handled) == [a, b]
  {
    Starts(id, url, capacity, session);
    DeliversTwo(Next(Next(Next(Begin(id, url, capacity), Connect(session)), Arrive(0)), Poll(0)), session, a, b);
  }

  /** The client's stream h has sent everything, the last of it numbered n. */
  predicate Idle(w: World, h: Handle, session: string, n: nat) {
    && w.client.source == Some(h) && h in w.streams && Registered(w, h)
    && w.streams[h] == ServerStream(session, n, false, false, [])
  }

  lemma Starts(id: string, url: string, capacity: nat, session: string)
    requires session != ""
    ensures var r := Next(Next(Next(Begin(id, url, capacity), Connect(session)), Arrive(0)), Poll(0));
            && Idle(r, 0, session, 0) && r.next == 1 && r.requests == map[] && r.capacity == capacity
            && r.published == [] && r.client.handled == [Entry(1, Ready(Some(session)))]
            && Dispatched(r.client.handled) == []
  {
  }

  lemma Delivers(w: World, h: Handle, session: string, n: nat, name: string)
    requires Idle(w, h, session, n) && w.capacity >= 1
    ensures var r, entry := Next(Next(w, Publish(name)), Poll(h)), Entry(n + 1, Dispatch(name));
            && Idle(r, h, session, n + 1) && r.client.cursor == Some(n + 1)
            && r.next == w.next && r.requests == w.requests && r.capacity == w.capacity
            && r.published == w.published + [name] && r.client.handled == w.client.handled + [entry]
            && Dispatched(r.client.handled) == Dispatched(w.client.handled) + [name]
  {
    var w1 := Next(w, Publish(name));
    assert w1.streams[h] == Queued(w.streams[h], name, w.capacity) && w1.streams[h].queue == [name];
    DispatchedSnoc(w.client.handled, Entry(n + 1, Dispatch(name)));
  }

  lemma DeliversTwo(w: World, session: string, a: string, b: string)
    requires Idle(w, 0, session, 0) && w.capacity >= 1
    ensures var r := Next(Next(Next(Next(w, Publish(a)), Poll(0)), Publish(b)), Poll(0));
            && Idle(r, 0, session, 2) && r.client.cursor == Some(2) && r.next == w.next && r.requests == w.requests
            && r.published == w.published + [a] + [b] && |r.client.handled| == |w.client.handled| + 2
            && Dispatched(r.client.handled) == Dispatched(w.client.handled) + [a] + [b]
  {
    Delivers(w, 0, session, 0, a);
    Delivers(Next(Next(w, Publish(a)), Poll(0)), 0, session, 1, b);
  }

  lemma Reopens(w: World, h: Handle, h': Handle, session: string, n: nat, name: string)
    requires Idle(w, h, session, n) && w.client.cursor.Some? && session != "" && w.next == h' && h < h'
    ensures var r := Next(Next(Next(Next(w, Fail), Publish(name)), Connect(session)), Arrive(h'));
            && r.client.handled == w.client.handled && r.client.cursor == w.client.cursor
            && r.published == w.published + [name] && Waiting(r) == []
            && r.client.source == Some(h') && h' in r.streams && r.streams[h'].hello
            && Next(r, Poll(h')).client.cursor == Some(1)
  {
  }

  lemma PlayNext(w: World, turns: seq<Turn>, k: nat)
    requires k < |turns|
    ensures Play(w, turns[..k + 1]) == Next(Play(w, turns[..k]), turns[k])
  {
    assert turns[..k + 1][..k] == turns[..k];
  }

  lemma PlayFour(w: World, turns: seq<Turn>, k: nat)
    requires k + 4 <= |turns|
    ensures Play(w, turns[..k + 4])
            == Next(Next(Next(Next(Play(w, turns[..k]), turns[k]), turns[k + 1]), turns[k + 2]), turns[k + 3])
  {
    PlayNext(w, turns, k);
    PlayNext(w, turns, k + 1);
    PlayNext(w, turns, k + 2);
    PlayNext(w, turns, k + 3);
  }

  lemma FailingRunPlays(w: World, session: string, a: string, b: string, c: string)
    ensures var w1 := Next(Next(Next(w, Connect(session)), Arrive(0)), Poll(0));
            var w3 := Next(Next(Next(Next(w1, Publish(a)), Poll(0)), Publish(b)), Poll(0));
            Play(w, FailingRun(session, a, b, c))
            == Next(Next(Next(Next(w3, Fail), Publish(c)), Connect(session)), Arrive(1))
  {
    PlayEleven(w, FailingRun(session, a, b, c));
  }

  lemma PlayEleven(w: World, turns: seq<Turn>)
    requires |turns| == 11
    ensures var w1 := Next(Next(Next(w, turns[0]), turns[1]), turns[2]);
            var w3 := Next(Next(Next(Next(w1, turns[3]), turns[4]), turns[5]), turns[6]);
            Play(w, turns) == Next(Next(Next(Next(w3, turns[7]), turns[8]), turns[9]), turns[10])
  {
    assert turns[..0] == [] && turns[..11] == turns;
    PlayNext(w, turns, 0);
    PlayNext(w, turns, 1);
    PlayNext(w, turns, 2);
    PlayFour(w, turns, 3);
    PlayFour(w, turns, 7);
  }

  // ---- What a stream sends ----

  /** What a run has done to one stream: the payloads sent on it, the events published to it, the cursor it came with,
      whether an event was lost for want of room, and whether one was since the last RECONNECT. */
  datatype Record = Record(sent: seq<Entry>, offered: seq<string>, cursor: nat, overflowed: bool, owed: bool)

  function RecordAfter(w: World, t: Turn, h: Handle, r: Record): Record {
    match t
    case Arrive(g) => if g == h && h in w.requests then r.(cursor := w.requests[h].1) else r
    case Publish(name) =>
      if !Registered(w, h) then r
      else
        var full := |w.streams[h].queue| >= w.capacity;
        r.(offered := r.offered + [name], overflowed := r.overflowed || full, owed := r.owed || full)
    case Poll(g) =>
      if g == h && h in w.streams && NextPayload(w.streams[h]).Some?
      then var entry := NextPayload(w.streams[h]).value;
           r.(sent := r.sent + [entry], owed := r.owed && !entry.op.Reconnect?)
      else r
    case _ => r
  }

  function RecordOf(w: World, turns: seq<Turn>, h: Handle): Record
    decreases |turns|
  {
    if turns == [] then Record([], [], 0, false, false)
    else
      var init := turns[..|turns| - 1];
      RecordAfter(Play(w, init), turns[|turns| - 1], h, RecordOf(w, init, h))
  }

  /** READY numbered 1 comes first, and the others count on from the cursor. */
  ghost predicate Numbered(st: ServerStream, r: Record) {
    && (st.hello <==> r.sent == []) && (r.sent != [] ==> r.sent[0] == Entry(1, Ready(Some(st.session))))
    && (forall k :: 1 <= k < |r.sent| ==> r.sent[k].id == r.cursor + k)
    && st.sequence == r.cursor + if r.sent == [] then 0 else |r.sent| - 1
  }

  /** What waits is the newest that was published to the stream, as much as there is room for; a RECONNECT is owed iff
      the stream says so; and as long as nothing was lost, what was sent and what waits is everything. */
  ghost predicate Carries(st: ServerStream, capacity: nat, r: Record) {
    && |st.queue| <= |r.offered| && |st.queue| <= capacity
    && st.queue == r.offered[|r.offered| - |st.queue|..]
    && st.lagged == r.owed && (r.owed ==> r.overflowed)
    && (r.owed && r.sent != [] ==> NextPayload(st) == Some(Entry(st.sequence + 1, Reconnect)))
    && (!r.overflowed ==> Dispatched(r.sent) + st.queue == r.offered)
  }

  ghost predicate Unborn(w: World, h: Handle) { h !in w.streams && (h in w.requests || w.next <= h) }

  ghost predicate RecordOk(w: World, h: Handle, r: Record) {
    && (h in w.streams ==> Numbered(w.streams[h], r) && Carries(w.streams[h], w.capacity, r))
    && (Unborn(w, h) ==> r.sent == [] && r.offered == [] && !r.overflowed && !r.owed)
  }

  lemma PublishRecord(w: World, name: string, h: Handle, r: Record)
    requires HandlesOk(w) && RecordOk(w, h, r) && Registered(w, h)
    ensures RecordOk(DoPublish(w, name), h, RecordAfter(w, Publish(name), h, r))
  {
    var st := w.streams[h];
    var now := RecordAfter(w, Publish(name), h, r);
    assert DoPublish(w, name).streams[h] == Queued(st, name, w.capacity);
    OfferOne(st, name, w.capacity, r, now);
  }

  lemma OfferOne(st: ServerStream, name: string, capacity: nat, r: Record, now: Record)
    requires Numbered(st, r) && Carries(st, capacity, r)
    requires now == r.(offered := r.offered + [name], overflowed := r.overflowed || |st.queue| >= capacity,
                       owed := r.owed || |st.queue| >= capacity)
    ensures Numbered(Queued(st, name, capacity), now) && Carries(Queued(st, name, capacity), capacity, now)
  {
    var n := |r.offered| - |st.queue|;
    if |st.queue| < capacity {
      assert now.offered[n..] == r.offered[n..] + [name];
      assert Dispatched(r.sent) + (st.queue + [name]) == Dispatched(r.sent) + st.queue + [name];
    } else if st.queue != [] {
      assert now.offered[n + 1..] == r.offered[n + 1..] + [name];
      assert st.queue[1..] == r.offered[n + 1..];
    }
  }

  lemma SendOne(st: ServerStream, capacity: nat, r: Record, entry: Entry)
    requires Numbered(st, r) && Carries(st, capacity, r) && NextPayload(st) == Some(entry)
    ensures var now := r.(sent := r.sent + [entry], owed := r.owed && !entry.op.Reconnect?);
            Numbered(Sent(st), now) && Carries(Sent(st), capacity, now)
  {
    DispatchedSnoc(r.sent, entry);
    if entry.op.Dispatch? {
      assert st.queue[1..] == r.offered[|r.offered| - |st.queue| + 1..];
      assert Dispatched(r.sent) + [st.queue[0]] + st.queue[1..] == Dispatched(r.sent) + st.queue;
    }
  }

  lemma PollRecord(w: World, h: Handle, r: Record)
    requires HandlesOk(w) && RecordOk(w, h, r) && h in w.streams
    ensures RecordOk(DoPoll(w, h), h, RecordAfter(w, Poll(h), h, r))
  {
    if NextPayload(w.streams[h]).Some? {
      SendOne(w.streams[h], w.capacity, r, NextPayload(w.streams[h]).value);
    }
  }

  lemma OtherPoll(w: World, g: Handle, h: Handle, r: Record)
    requires HandlesOk(w) && RecordOk(w, h, r) && g != h && g in w.streams
    ensures RecordOk(DoPoll(w, g), h, r)
  {
  }

  /** A stream as it arrives has sent nothing and been offered nothing. */
  lemma FreshStream(session: string, cursor: nat, capacity: nat)
    ensures var st, r := ServerStream(session, cursor, true, false, []), Record([], [], cursor, false, false);
            Numbered(st, r) && Carries(st, capacity, r)
  {
    assert Dispatched([]) + [] == [];
  }

  lemma ArriveRecord(w: World, g: Handle, h: Handle, r: Record)
    requires HandlesOk(w) && RecordOk(w, h, r) && g in w.requests
    ensures RecordOk(DoArrive(w, g), h, RecordAfter(w, Arrive(g), h, r))
  {
    if g == h {
      var (session, cursor) := w.requests[g];
      FreshStream(session, cursor, w.capacity);
      assert DoArrive(w, g).streams[h] == ServerStream(session, cursor, true, false, []);
      assert RecordAfter(w, Arrive(g), h, r) == Record([], [], cursor, false, false);
    } else {
      assert h in w.streams ==> DoArrive(w, g).streams[h] == w.streams[h];
      assert RecordAfter(w, Arrive(g), h, r) == r;
    }
  }

  lemma StepRecord(w: World, t: Turn, h: Handle, r: Record)
    requires HandlesOk(w) && RecordOk(w, h, r)
    ensures RecordOk(Next(w, t), h, RecordAfter(w, t, h, r))
  {
    match t
    case Publish(name) => if Registered(w, h) { PublishRecord(w, name, h, r); }
    case Poll(g) => if g in w.streams { if g == h { PollRecord(w, h, r); } else { OtherPoll(w, g, h, r); } }
    case Arrive(g) => if g in w.requests { ArriveRecord(w, g, h, r); }
    case _ =>
  }

  /** In every run a stream sends READY first and numbers everything else on from its cursor; what waits is the newest
      that was published to it, and a RECONNECT is owed iff an event was lost since the last one; as long as none was,
      what it has sent and what waits is everything that was published to it. */
  lemma {:induction false} StreamSends(id: string, url: string, capacity: nat, turns: seq<Turn>, h: Handle)
    ensures RecordOk(Play(Begin(id, url, capacity), turns), h, RecordOf(Begin(id, url, capacity), turns, h))
    decreases |turns|
  {
    if turns != [] {
      var start, init := Begin(id, url, capacity), turns[..|turns| - 1];
      StreamSends(id, url, capacity, init, h);
      PlayHandles(start, init);
      StepRecord(Play(start, init), turns[|turns| - 1], h, RecordOf(start, init, h));
    }
  }

  // ---- Two streams of one session ----

  predicate OneSession(w: World, h: Handle, m: Handle) {
    h != m && h in w.streams && m in w.streams && w.streams[h].session == w.streams[m].session
  }

  /** Another request of the session of m arrives, or another stream of it ends or is dropped. */
  predicate Displaces(w: World, t: Turn, m: Handle)
    requires m in w.streams
  {
    match t
    case Arrive(h) => h in w.requests && w.requests[h].0 == w.streams[m].session
    case Poll(h) => OneSession(w, h, m) && NextPayload(w.streams[h]).None? && !Registered(w, h)
    case Gone(h) => OneSession(w, h, m)
    case _ => false
  }

  /** A registered stream that is still there is no longer registered iff the turn displaced it. */
  lemma DisplacedIff(w: World, t: Turn, m: Handle)
    requires HandlesOk(w) && Registered(w, m)
    ensures m in Next(w, t).streams ==> (!Registered(Next(w, t), m) <==> Displaces(w, t, m))
  {
  }

  /** A stream that has been there stays as it is, but for its queue, or goes for good. */
  lemma StreamStays(w: World, t: Turn, m: Handle)
    requires HandlesOk(w) && m < w.next && m !in w.requests
    ensures m < Next(w, t).next && m !in Next(w, t).requests
    ensures m in Next(w, t).streams ==> m in w.streams && Next(w, t).streams[m].session == w.streams[m].session
    ensures m in Next(w, t).streams && Registered(Next(w, t), m) ==> Registered(w, m)
  {
  }

  ghost predicate WasDisplaced(w: World, turns: seq<Turn>, m: Handle)
    decreases |turns|
  {
    turns != [] &&
    (var before := Play(w, turns[..|turns| - 1]);
     WasDisplaced(w, turns[..|turns| - 1], m) || (m in before.streams && Displaces(before, turns[|turns| - 1], m)))
  }

  lemma UnregisteredStep(w: World, t: Turn, m: Handle, displaced: bool)
    requires HandlesOk(w)
    requires m in w.streams ==> (!Registered(w, m) <==> displaced)
    requires displaced ==> m < w.next && m !in w.requests
    ensures var r, now := Next(w, t), displaced || (m in w.streams && Displaces(w, t, m));
            && (m in r.streams ==> (!Registered(r, m) <==> now))
            && (now ==> m < r.next && m !in r.requests)
  {
    if m in w.streams || displaced {
      StreamStays(w, t, m);
      if m in w.streams && Registered(w, m) { DisplacedIff(w, t, m); }
    }
  }

  /** In every run a stream that is there is unregistered iff, since it arrived, another request of its session arrived
      or another stream of it ended or was dropped. */
  lemma {:induction false} UnregisteredIff(id: string, url: string, capacity: nat, turns: seq<Turn>, m: Handle)
    ensures var r, displaced := Play(Begin(id, url, capacity), turns), WasDisplaced(Begin(id, url, capacity), turns, m);
            && (m in r.streams ==> (!Registered(r, m) <==> displaced))
            && (displaced ==> m < r.next && m !in r.requests)
    decreases |turns|
  {
    if turns != [] {
      var start, init := Begin(id, url, capacity), turns[..|turns| - 1];
      UnregisteredIff(id, url, capacity, init, m);
      PlayHandles(start, init);
      UnregisteredStep(Play(start, init), turns[|turns| - 1], m, WasDisplaced(start, init, m));
    }
  }

  /** The payloads that a stream sends before it ends, if nothing more is queued. */
  function Left(st: ServerStream): nat {
    (if st.hello then 1 else 0) + (if st.lagged then 1 else 0) + |st.queue|
  }

  function Polls(turns: seq<Turn>, h: Handle): nat {
    if turns == [] then 0 else Polls(turns[..|turns| - 1], h) + if turns[|turns| - 1] == Poll(h) then 1 else 0
  }

  lemma EndsStep(w: World, t: Turn, h: Handle)
    requires HandlesOk(w) && h in w.streams && !Registered(w, h)
    ensures var r := Next(w, t);
            && (h in r.streams <==> t != Gone(h) && (t != Poll(h) || Left(w.streams[h]) > 0))
            && (h in r.streams ==>
                  && !Registered(r, h)
                  && Left(r.streams[h]) == Left(w.streams[h]) - if t == Poll(h) then 1 else 0)
  {
    StreamStays(w, t, h);
  }

  /** An unregistered stream ends: it is still there iff it was not dropped and the server polled it no more often than
      it had payloads left, whatever is published meanwhile. */
  lemma {:induction false} UnregisteredEndsIff(w: World, turns: seq<Turn>, h: Handle)
    requires HandlesOk(w) && h in w.streams && !Registered(w, h)
    ensures var r := Play(w, turns);
            && (h in r.streams <==> Gone(h) !in turns && Polls(turns, h) <= Left(w.streams[h]))
            && (h in r.streams ==> !Registered(r, h) && Left(r.streams[h]) == Left(w.streams[h]) - Polls(turns, h))
    decreases |turns|
  {
    if turns != [] {
      var init, t := turns[..|turns| - 1], turns[|turns| - 1];
      assert turns == init + [t];
      UnregisteredEndsIff(w, init, h);
      PlayHandles(w, init);
      UsedUp(w, init, h);
      if h in Play(w, init).streams {
        EndsStep(Play(w, init), t, h);
      } else {
        StreamStays(Play(w, init), t, h);
      }
    }
  }

  lemma {:induction false} UsedUp(w: World, turns: seq<Turn>, h: Handle)
    requires HandlesOk(w) && h < w.next && h !in w.requests
    ensures h < Play(w, turns).next && h !in Play(w, turns).requests
    decreases |turns|
  {
    if turns != [] {
      UsedUp(w, turns[..|turns| - 1], h);
      PlayHandles(w, turns[..|turns| - 1]);
      StreamStays(Play(w, turns[..|turns| - 1]), turns[|turns| - 1], h);
    }
  }

  /** The older stream is there and unregistered, or its session is, and the newer one with it. */
  ghost predicate OlderLeaves(w: World, older: Handle, m: Handle) {
    && older < w.next && m < w.next && older !in w.requests && m !in w.requests && older != m
    && (older in w.streams && m in w.streams ==> w.streams[older].session == w.streams[m].session)
    && (older !in w.streams && m in w.streams ==> !Registered(w, m))
  }

  lemma OlderLeavesStep(w: World, t: Turn, older: Handle, m: Handle)
    requires HandlesOk(w) && OlderLeaves(w, older, m)
    ensures OlderLeaves(Next(w, t), older, m)
  {
    StreamStays(w, t, older);
    StreamStays(w, t, m);
  }

  lemma {:induction false} OlderLeavesRun(w: World, turns: seq<Turn>, older: Handle, m: Handle)
    requires HandlesOk(w) && OlderLeaves(w, older, m)
    ensures OlderLeaves(Play(w, turns), older, m)
    decreases |turns|
  {
    if turns != [] {
      OlderLeavesRun(w, turns[..|turns| - 1], older, m);
      PlayHandles(w, turns[..|turns| - 1]);
      OlderLeavesStep(Play(w, turns[..|turns| - 1]), turns[|turns| - 1], older, m);
    }
  }

  /** A client that holds a stream the server has ended holds it only if the server dropped it. */
  lemma {:induction false} HolderLearns(w: World, turns: seq<Turn>, m: Handle)
    requires HandlesOk(w) && m < w.next && m !in w.requests && (w.client.source == Some(m) ==> m in w.streams)
    ensures Play(w, turns).client.source == Some(m) ==> m in Play(w, turns).streams || Gone(m) in turns
    decreases |turns|
  {
    if turns != [] {
      var init := turns[..|turns| - 1];
      assert turns == init + [turns[|turns| - 1]];
      HolderLearns(w, init, m);
      PlayHandles(w, init);
      UsedUp(w, init, m);
      if Play(w, turns).client.source == Some(m) { HolderStep(Play(w, init), turns[|turns| - 1], m); }
    }
  }

  lemma HolderStep(w: World, t: Turn, m: Handle)
    requires HandlesOk(w) && m < w.next && m !in w.requests && Next(w, t).client.source == Some(m)
    ensures w.client.source == Some(m)
    ensures m in w.streams ==> m in Next(w, t).streams || t == Gone(m)
  {
  }

  /** A stream that arrives while an older one of its session is there ends both: once the older one has been polled
      more often than it had payloads left, it is gone and the newer one unregistered, and that ends the same way. */
  lemma ArrivalEndsBoth(w: World, m: Handle, older: Handle, first: seq<Turn>, second: seq<Turn>)
    requires HandlesOk(w) && m in w.requests && older in w.streams && w.streams[older].session == w.requests[m].0
    requires Polls(first, older) > Left(w.streams[older])
    ensures var mid := Play(Next(w, Arrive(m)), first);
            var r := Play(mid, second);
            && older !in mid.streams && (m in mid.streams ==> !Registered(mid, m))
            && (m in mid.streams && Polls(second, m) > Left(mid.streams[m]) ==> m !in r.streams)
            && (m !in r.streams && Gone(m) !in first && Gone(m) !in second ==> r.client.source != Some(m))
  {
    var w1 := Next(w, Arrive(m));
    var mid := Play(w1, first);
    NextHandles(w, Arrive(m));
    UnregisteredEndsIff(w1, first, older);
    OlderLeavesRun(w1, first, older, m);
    PlayHandles(w1, first);
    HolderLearns(w1, first, m);
    if m in mid.streams { UnregisteredEndsIff(mid, second, m); }
    if Gone(m) !in first { HolderLearns(mid, second, m); }
  }

  // ---- A client on an unregistered stream ----

  /** The client's stream is there, and no longer registered. */
  ghost predicate Deaf(w: World, m: Handle) {
    HandlesOk(w) && w.client.source == Some(m) && m in w.streams && !Registered(w, m)
  }

  function DeafRun(session: string): seq<Turn> {
    [Connect(session), Arrive(0), Fail, Connect(session), Arrive(1), Gone(0)]
  }

  /** Reconnecting before the server has dropped the old stream gets there; two polls later the client is without. */
  lemma DeafIsReachable(id: string, url: string, capacity: nat, session: string)
    requires session != ""
    ensures var r := Play(Begin(id, url, capacity), DeafRun(session));
            Deaf(r, 1) && Next(Next(r, Poll(1)), Poll(1)).client.source == None
  {
    var start, turns := Begin(id, url, capacity), DeafRun(session);
    var w := Play(start, turns[..4]);
    assert turns[..0] == [] && turns[..6] == turns;
    PlayFour(start, turns, 0);
    ReconnectsEarly(id, url, capacity, session);
    PlayHandles(start, turns);
    PlayNext(start, turns, 4);
    PlayNext(start, turns, 5);
    DropsOlder(w, Play(start, turns), session, 0, 1);
  }

  lemma ReconnectsEarly(id: string, url: string, capacity: nat, session: string)
    requires session != ""
    ensures var w0 := Next(Next(Begin(id, url, capacity), Connect(session)), Arrive(0));
            var w := Next(Next(w0, Fail), Connect(session));
            && w.requests == map[1 := (session, 0)] && w.client.source == Some(1)
            && 0 in w.streams && w.streams[0].session == session
  {
  }

  lemma DropsOlder(w: World, r: World, session: string, older: Handle, m: Handle)
    requires m in w.requests && w.requests[m] == (session, 0) && w.client.source == Some(m) && older != m
    requires older in w.streams && w.streams[older].session == session
    requires r == Next(Next(w, Arrive(m)), Gone(older))
    ensures r.client.source == Some(m) && m in r.streams && !Registered(r, m)
    ensures Next(Next(r, Poll(m)), Poll(m)).client.source == None
  {
  }

  lemma StaysDeaf(w: World, t: Turn, m: Handle)
    requires Deaf(w, m)
    ensures Next(w, t).client.source == Some(m) && t != Gone(m) ==>
              Deaf(Next(w, t), m)
              && Dispatched(Next(w, t).client.handled) + Waiting(Next(w, t))
                 == Dispatched(w.client.handled) + Waiting(w)
  {
    NextHandles(w, t);
    match t
    case Poll(h) =>
      if h == m && NextPayload(w.streams[m]).Some? {
        OwnPollCounts(w.client, w.streams[m], NextPayload(w.streams[m]).value);
      }
    case _ =>
  }

  /** However much is published, until its stream ends the client gets no more than was queued already. */
  lemma {:induction false} DeafGetsOnlyQueued(w: World, turns: seq<Turn>, m: Handle)
    requires Deaf(w, m) && Play(w, turns).client.source == Some(m) && Gone(m) !in turns
    ensures var r := Play(w, turns);
            Deaf(r, m) && Dispatched(r.client.handled) + Waiting(r) == Dispatched(w.client.handled) + Waiting(w)
    decreases |turns|
  {
    if turns != [] {
      var init, t := turns[..|turns| - 1], turns[|turns| - 1];
      assert turns == init + [t];
      PlayHandles(w, init);
      UsedUp(w, init, m);
      HolderStep(Play(w, init), t, m);
      DeafGetsOnlyQueued(w, init, m);
      StaysDeaf(Play(w, init), t, m);
    }
  }
}
