/**
 Connections that say `connected` with nothing behind it.  The code marks a connection so when another one to the same
 URL has a stream (lines 446-463), and leaves the mark on one whose stream it closes when it has no token (413-439).
 */
module RealtimeCovered {
  import opened Options
  import opened RealtimeModel
  import opened RealtimeSafety
  import opened RealtimeLiveness
  import opened RealtimeRetry
  import opened RealtimeOnline

  /** `connected`, with no stream, no session request and no retry. */
  ghost predicate Silent(s: State, c: ServerConnection) {
    Current(s, c) && Quiet(s.conns[c]) && NoPost(s, c)
  }

  predicate Quiet(v: Conn) {
    v.connected && !v.connecting && v.source.None? && v.timer.None?
  }

  // ---- What makes a connection silent ----

  /** c is asked to connect, by a call or by its own timer, in a state in which that leaves it silent: it is not
      connecting and has no other timer, and it is covered, or connected without a token. */
  predicate Silences(s: State, e: Event, c: ServerConnection)
    requires c in s.conns
  {
    && (if e.TimerFires? then BelongsTo(s, e, c) else Asks(s, e, c) && s.conns[c].timer.None?)
    && !s.conns[c].connecting
    && if HasToken(s, s.conns[c].serverId) then Covered(s, c) else s.conns[c].connected
  }

  /** Closing one's own stream does not change by whom one is covered. */
  lemma CoveredByOthers(s: State, r: State, c: ServerConnection)
    requires c in s.conns && c in r.conns && r.connections == s.connections
    requires r.conns[c].serverUrl == s.conns[c].serverUrl && r.conns.Keys == s.conns.Keys
    requires forall d :: d in s.conns && d != c ==> r.conns[d] == s.conns[d]
    ensures Covered(r, c) <==> Covered(s, c)
  {
    if Covered(s, c) { CoveredOneWay(s, r, c); }
    if Covered(r, c) { CoveredOneWay(r, s, c); }
  }

  lemma CoveredOneWay(s: State, r: State, c: ServerConnection)
    requires c in s.conns && Covered(s, c) && c in r.conns && r.connections == s.connections
    requires r.conns[c].serverUrl == s.conns[c].serverUrl && r.conns.Keys == s.conns.Keys
    requires forall d :: d in s.conns && d != c ==> r.conns[d] == s.conns[d]
    ensures Covered(r, c)
  {
    var d :| d in s.connections && s.connections[d] != c && s.connections[d] in s.conns
             && Normalize(s.conns[s.connections[d]].serverUrl) == Normalize(s.conns[c].serverUrl)
             && Busy(s.conns[s.connections[d]]);
    assert r.conns[r.connections[d]] == s.conns[s.connections[d]];
  }

  lemma SseSilentIff(s: State, c: ServerConnection)
    requires Current(s, c) && s.conns[c].source.None? && (!s.conns[c].connecting ==> NoPost(s, c))
    ensures Silent(ConnectRealtimeSse(s, c), c)
            <==> !s.conns[c].connecting && s.conns[c].timer.None?
                 && if HasToken(s, s.conns[c].serverId) then Covered(s, c) else s.conns[c].connected
  {
    if s.conns[c].connecting || !HasToken(s, s.conns[c].serverId) {
      assert ConnectRealtimeSse(s, c) == s;
    } else if Covered(s, c) {
      assert ConnectRealtimeSse(s, c) == Put(s, c, s.conns[c].(connected := true, connecting := false));
    } else {
      assert ConnectRealtimeSse(s, c) == StartSession(ClearTimer(s, c), c);
    }
  }

  lemma ConnectSilentIff(s: State, c: ServerConnection)
    requires Current(s, c) && (!s.conns[c].connecting ==> NoPost(s, c))
    ensures Silent(ConnectRealtime(s, c), c)
            <==> !s.conns[c].connecting && s.conns[c].timer.None?
                 && if HasToken(s, s.conns[c].serverId) then Covered(s, c) else s.conns[c].connected
  {
    CoveredByOthers(s, CloseSource(s, c), c);
    SseSilentIff(CloseSource(s, c), c);
  }

  lemma AskedSilentIff(s: State, e: Event, c: ServerConnection)
    requires Inv(s) && Enabled(s, e) && Current(s, c) && Asks(s, e, c)
    ensures Silent(Step(s, e), c) <==> Silences(s, e, c)
  {
    var s1 := Put(s, c, s.conns[c].(allow := true));
    CoveredByOthers(s, s1, c);
    ConnectSilentIff(s1, c);
    SameSilence(ConnectRealtime(s1, c), Step(s, e), c);
  }

  lemma SameSilence(s: State, r: State, c: ServerConnection)
    requires r.conns == s.conns && r.connections == s.connections && r.posts == s.posts
    ensures Silent(r, c) <==> Silent(s, c)
  {
  }

  lemma TimerSilentIff(s: State, t: Handle, c: ServerConnection)
    requires Inv(s) && Current(s, c) && t in s.timers && s.timers[t].conn == c
    ensures Silent(DoTimerFires(s, t), c) <==> Silences(s, TimerFires(t), c)
  {
    var s1 := Put(s, c, s.conns[c].(timer := None)).(timers := s.timers - {t});
    CoveredByOthers(s, s1, c);
    ConnectSilentIff(s1, c);
    assert DoTimerFires(s, t) == ConnectRealtime(s1, c);
  }

  lemma DropNotQuiet(s: State, c: ServerConnection)
    requires c in s.conns
    ensures c in DropAndRetry(s, c).conns && !DropAndRetry(s, c).conns[c].connected
  {
  }

  lemma PayloadQuietIff(s: State, c: ServerConnection, op: Op)
    requires c in s.conns && s.conns[c].source.Some?
    ensures c in HandlePayload(s, c, op).conns && !Quiet(HandlePayload(s, c, op).conns[c])
  {
    match op
    case Reconnect => DropNotQuiet(s, c);
    case InvalidSession => DropNotQuiet(Put(s, c, s.conns[c].(session := None)), c);
    case _ =>
  }

  lemma PostDoneNotQuiet(s: State, p: Handle, reply: Reply)
    requires Inv(s) && p in s.posts && Current(s, s.posts[p])
    ensures !Silent(DoPostDone(s, p, reply), s.posts[p])
  {
    assert s.conns[s.posts[p]].connecting;
  }

  lemma MessageSilentIff(s: State, h: Handle)
    requires Inv(s) && h in s.streams && !Silent(s, s.streams[h].conn)
    ensures !Silent(DoStreamMessage(s, h), s.streams[h].conn)
  {
    var c := s.streams[h].conn;
    if Holds(s, h, c) && NextEntry(s, h).Some? {
      PayloadQuietIff(Received(s, h, NextEntry(s, h).value), c, NextEntry(s, h).value.op);
    }
  }

  lemma StreamNotSilent(s: State, e: Event, h: Handle)
    requires Inv(s) && h in s.streams && !Silent(s, s.streams[h].conn) && (e == StreamOpen(h) || e == StreamError(h))
    ensures !Silent(Step(s, e), s.streams[h].conn)
  {
    var c := s.streams[h].conn;
    if Holds(s, h, c) && e.StreamError? {
      DropNotQuiet(s, c);
    }
  }

  /** An event makes a live connection silent iff it asks it to connect in such a state: nothing else does. */
  lemma BecomesSilentIff(s: State, e: Event, c: ServerConnection)
    requires Inv(s) && Enabled(s, e) && Current(s, c) && !Silent(s, c)
    ensures Silent(Step(s, e), c) <==> Silences(s, e, c)
  {
    if !Concerns(s, e, c) {
      OthersLeave(s, e, c);
    } else if Asks(s, e, c) {
      AskedSilentIff(s, e, c);
    } else {
      match e
      case DisconnectServer(_) => DisconnectStops(s, c);
      case TimerFires(t) => TimerSilentIff(s, t, c);
      case PostDone(p, reply) => PostDoneNotQuiet(s, p, reply);
      case StreamMessage(h) => MessageSilentIff(s, h);
      case StreamOpen(h) => StreamNotSilent(s, e, h);
      case StreamError(h) => StreamNotSilent(s, e, h);
    }
  }

  // ---- How long it stays so ----

  /** No event changes it, whatever becomes of the other connection, until it is asked to connect again or is
      disconnected: its `connected` flag outlives the stream that justified it. */
  lemma StaysSilent(s: State, e: Event, c: ServerConnection)
    requires Inv(s) && Silent(s, c)
    requires Enabled(s, e) && Concerns(s, e, c) ==> !Reconnects(e) && !e.DisconnectServer?
    ensures Silent(Step(s, e), c) && Step(s, e).conns[c] == s.conns[c]
  {
    if Enabled(s, e) {
      if !Concerns(s, e, c) {
        OthersLeave(s, e, c);
        StillCurrent(s, e, c);
      } else {
        OwnCallbacksSilent(s, e, c);
      }
    }
  }

  lemma StillCurrent(s: State, e: Event, c: ServerConnection)
    requires Inv(s) && Enabled(s, e) && Current(s, c) && !Concerns(s, e, c)
    ensures c in Step(s, e).conns && s.conns[c].serverId in Step(s, e).connections
    ensures Step(s, e).connections[s.conns[c].serverId] == c
  {
    OthersLeave(s, e, c);
    StillLive(s, e, c);
  }

  lemma OwnCallbacksSilent(s: State, e: Event, c: ServerConnection)
    requires Inv(s) && Silent(s, c) && Enabled(s, e) && BelongsTo(s, e, c)
    ensures Silent(Step(s, e), c) && Step(s, e).conns[c] == s.conns[c]
  {
  }

  /** The run never asks the connection to connect again and never disconnects it. */
  ghost predicate LeftAlone(s: State, events: seq<Event>, c: ServerConnection)
    decreases |events|
  {
    events == [] ||
    (var before, e := events[..|events| - 1], events[|events| - 1];
     && LeftAlone(s, before, c)
     && (Enabled(Run(s, before), e) && Concerns(Run(s, before), e, c) ==> !Reconnects(e) && !e.DisconnectServer?))
  }

  lemma {:induction false} StaysSilentInRun(s: State, events: seq<Event>, c: ServerConnection)
    requires Inv(s) && Silent(s, c) && LeftAlone(s, events, c)
    ensures Silent(Run(s, events), c) && Run(s, events).conns[c] == s.conns[c]
    decreases |events|
  {
    if events != [] {
      var before := events[..|events| - 1];
      StaysSilentInRun(s, before, c);
      RunKeeps(s, before);
      StaysSilent(Run(s, before), events[|events| - 1], c);
    }
  }

  // ---- From the start ----

  /** A connection is silent from the moment it is made iff it has a token and is covered. */
  lemma MadeSilentIff(s: State, id: string, url: string, made: ServerConnection)
    requires Inv(s) && made !in s.conns && id !in s.connections
    ensures Silent(CreateConnection(s, id, url, made), made)
            <==> HasToken(s, id) && Covered(Insert(s, id, url, made), made)
  {
    var s1 := Insert(s, id, url, made);
    assert NoPost(s1, made);
    ConnectSilentIff(s1, made);
  }

  /** Two servers are listed under one URL and the first has a stream. */
  ghost predicate FirstStreams(s: State, c: ServerConnection) {
    && s.servers == map["a" := Server("http://a", true), "b" := Server("http://a", true)]
    && s.connections == map["a" := c] && s.conns.Keys == {c} && s.conns[c].serverId == "a"
    && s.conns[c].serverUrl == "http://a" && s.conns[c].source == Some(1) && s.conns[c].timer.None?
    && s.streams.Keys == {1} && s.streams[1].conn == c && s.inFlight.Keys == {"a"} && s.posts == map[]
    && !s.offline
  }

  const Opening: seq<Event> := [SetServer("a", Server("http://a", true)), SetServer("b", Server("http://a", true))]

  lemma RunFour(a: Event, b: Event, c: Event, d: Event)
    ensures Run(Init, [a, b, c, d]) == Step(Step(Step(Step(Init, a), b), c), d)
  {
    RunThree(Init, a, b, c);
    assert [a, b, c, d] == [a, b, c] + [d];
    RunSnoc(Init, [a, b, c], d);
  }

  lemma FirstAsked(c: ServerConnection)
    ensures var s := Step(Step(Step(Init, Opening[0]), Opening[1]), ConnectServer("a", false, Some(c)));
            && s.servers == map["a" := Server("http://a", true), "b" := Server("http://a", true)]
            && s.connections == map["a" := c] && s.conns.Keys == {c} && s.posts == map[0 := c] && s.next == 1
            && s.streams == map[] && s.inFlight.Keys == {"a"} && !s.offline
            && s.conns[c] == NewConn("a", "http://a").(connecting := true)
  {
    var s2 := Step(Step(Init, Opening[0]), Opening[1]);
    var s3 := Insert(s2, "a", "http://a", c);
    assert s2.servers == map["a" := Server("http://a", true), "b" := Server("http://a", true)];
    assert !Covered(CloseSource(s3, c), c);
    assert ConnectRealtime(s3, c) == StartSession(ClearTimer(CloseSource(s3, c), c), c);
  }

  lemma FirstOpens(c: ServerConnection)
    ensures FirstStreams(Step(Step(Step(Step(Init, Opening[0]), Opening[1]), ConnectServer("a", false, Some(c))),
                              PostDone(0, SessionOk(None, Some(0)))), c)
  {
    FirstAsked(c);
  }

  lemma SecondIsSilent(s: State, c: ServerConnection, d: ServerConnection)
    requires Inv(s) && FirstStreams(s, c) && c != d
    ensures var r := Step(s, ConnectServer("b", false, Some(d)));
            Silent(r, d) && "a" in r.connections && r.connections["a"] == c && r.conns[c] == s.conns[c]
            && r.streams == s.streams && !r.offline
  {
    var s1 := Insert(s, "b", "http://a", d);
    assert s1.connections["a"] == c && s1.conns[c] == s.conns[c];
    assert Covered(s1, d) && Covered(CloseSource(s1, d), d);
    MadeSilentIff(s, "b", "http://a", d);
    assert ConnectRealtime(s1, d) == Put(CloseSource(s1, d), d, s1.conns[d].(connected := true));
  }

  lemma DropCloses(s: State, c: ServerConnection)
    requires c in s.conns && s.conns[c].source == Some(1) && s.streams.Keys == {1}
    ensures forall h :: h in DropAndRetry(s, c).streams ==> !DropAndRetry(s, c).streams[h].open
  {
    var s1 := CloseSource(s, c);
    assert s1.streams.Keys == {1} && !s1.streams[1].open;
  }

  lemma FirstStreamFails(s: State, c: ServerConnection, d: ServerConnection)
    requires Inv(s) && Silent(s, d) && "a" in s.connections && s.connections["a"] == c && c != d
    requires s.streams.Keys == {1} && s.streams[1].conn == c && s.conns[c].source == Some(1)
    ensures var r := Step(s, StreamError(1)); Silent(r, d) && forall h :: h in r.streams ==> !r.streams[h].open
  {
    StaysSilent(s, StreamError(1), d);
    DropCloses(s, c);
    assert Step(s, StreamError(1)) == DropAndRetry(s, c);
  }

  /** No stream is open. */
  ghost predicate NoStream(s: State) {
    forall h :: h in s.streams ==> !s.streams[h].open
  }

  lemma SilentAfter(first: seq<Event>, c: ServerConnection, d: ServerConnection)
    requires FirstStreams(Run(Init, first), c) && c != d
    ensures var r := Run(Init, first + [ConnectServer("b", false, Some(d))] + [StreamError(1)]);
            Silent(r, d) && NoStream(r)
  {
    var second, third := ConnectServer("b", false, Some(d)), StreamError(1);
    EveryRunKeeps(first);
    SecondIsSilent(Run(Init, first), c, d);
    RunSnoc(Init, first, second);
    EveryRunKeeps(first + [second]);
    FirstStreamFails(Run(Init, first + [second]), c, d);
    RunSnoc(Init, first + [second], third);
  }

  /** A run after which a connection says it is connected while no stream is open anywhere: the one that covered it has
      failed. */
  lemma SilentIsReachable(c: ServerConnection, d: ServerConnection)
    requires c != d
    ensures exists events :: Silent(Run(Init, events), d) && NoStream(Run(Init, events))
  {
    var first := FirstSteps(c);
    FirstStreamsAfter(c);
    SilentAfter(first, c, d);
  }

  function FirstSteps(c: ServerConnection): seq<Event> {
    [Opening[0], Opening[1], ConnectServer("a", false, Some(c)), PostDone(0, SessionOk(None, Some(0)))]
  }

  lemma FirstStreamsAfter(c: ServerConnection)
    ensures FirstStreams(Run(Init, FirstSteps(c)), c)
  {
    RunFour(Opening[0], Opening[1], ConnectServer("a", false, Some(c)), PostDone(0, SessionOk(None, Some(0))));
    FirstOpens(c);
  }
}
