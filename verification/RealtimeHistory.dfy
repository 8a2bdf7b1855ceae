/**
 What a run leaves in a connection's record, read from the events alone: where its history begins and that it handles
 every later entry exactly once, and which session it has.
 */
module RealtimeHistory {
  import opened Options
  import opened RealtimeModel
  import opened RealtimeSafety
  import opened RealtimeLiveness
  import opened RealtimeRetry
  import opened RealtimeOnline
  import opened RealtimeResume
  import opened RealtimeLifecycle

  // ---- Where a history begins ----

  /** The session request of the live connection c is answered with a cursor. */
  predicate AnsweredWith(s: State, e: Event, c: ServerConnection) {
    e.PostDone? && e.post in s.posts && s.posts[e.post] == c && Current(s, c)
    && !e.reply.SessionFailed? && e.reply.cursor.Some?
  }

  /** The id of the last entry that the server has emitted, -1 before the first. */
  function LogEnd(s: State, url: string): int {
    if Log(s, url) == [] then -1 else Log(s, url)[|Log(s, url)| - 1].id
  }

  /** The end of the server's log when stream h was made. */
  function MadeAt(events: seq<Event>, h: Handle): int
    decreases |events|
  {
    if events == [] then -1
    else
      var s, e := Run(Init, events[..|events| - 1]), events[|events| - 1];
      if h in s.streams || !e.PostDone? || e.post !in s.posts || s.posts[e.post] !in s.conns
      then MadeAt(events[..|events| - 1], h)
      else LogEnd(s, s.conns[s.posts[e.post]].serverUrl)
  }

  /** The live connection c holds stream h and the server has something for it that is newer than k. */
  ghost predicate GetsAfter(s: State, e: Event, c: ServerConnection, k: int) {
    && e.StreamMessage? && e.h in s.streams && s.streams[e.h].conn == c && Current(s, c)
    && s.conns[c].source == Some(e.h)
    && exists i :: 0 <= i < |Log(s, s.conns[c].serverUrl)| && Log(s, s.conns[c].serverUrl)[i].id > k
  }

  /** The cursor of the first session answer that had one, or, if an entry came before any such answer, the end of the
      log when the stream that brought it was made. */
  ghost function Beginning(events: seq<Event>, c: ServerConnection): Option<int>
    decreases |events|
  {
    if events == [] then None
    else
      var init, e := events[..|events| - 1], events[|events| - 1];
      var s := Run(Init, init);
      if Beginning(init, c).Some? then Beginning(init, c)
      else if AnsweredWith(s, e, c) then Some(e.reply.cursor.value)
      else if e.StreamMessage? && GetsAfter(s, e, c, MadeAt(init, e.h)) then Some(MadeAt(init, e.h))
      else None
  }

  /** A stream that is held by a connection without a cursor is still where it was made. */
  ghost predicate Unread(s: State, c: ServerConnection, h: Handle, at: int) {
    c in s.conns && s.conns[c].source == Some(h) && s.conns[c].cursor.None? && h in s.streams ==>
      s.streams[h].after == at
  }


  lemma AnsweredStream(s: State, p: Handle, reply: Reply, c: ServerConnection)
    requires Inv(s) && Current(s, c) && p in s.posts && s.posts[p] == c && reply.SessionOk?
    requires DoPostDone(s, p, reply).conns[c].cursor.None?
    ensures var r := DoPostDone(s, p, reply);
            s.next in r.streams && r.streams[s.next].after == LogEnd(s, s.conns[c].serverUrl)
  {
  }

  lemma ReadingSetsCursor(s: State, h: Handle, c: ServerConnection)
    requires Holds(s, h, c)
    ensures c in DoStreamMessage(s, h).conns
    ensures if NextEntry(s, h).Some? then DoStreamMessage(s, h).conns[c].cursor.Some? else DoStreamMessage(s, h) == s
  {
    if NextEntry(s, h).Some? {
      var entry := NextEntry(s, h).value;
      HandlePayloadKept(Received(s, h, entry), c, entry.op);
    }
  }

  /** What is true of a stream once the event has happened, in terms of where it was made. */
  lemma StepUnread(s: State, e: Event, c: ServerConnection, h: Handle, at: int)
    requires Inv(s) && ResumeOk(s) && Enabled(s, e) && Unread(s, c, h, at)
    requires h !in s.streams && e.PostDone? && e.post in s.posts ==> at == LogEnd(s, s.conns[s.posts[e.post]].serverUrl)
    ensures Unread(Step(s, e), c, h, at)
  {
    var r := Step(s, e);
    if c in r.conns && r.conns[c].source == Some(h) && r.conns[c].cursor.None? {
      HolderWasThere(s, e, c);
      LifeRefines(s, e, c);
      SourceCame(s, Happens(s, e, c), c, r, h);
      if Happens(s, e, c).Answered? {
        AnsweredIs(s, e, c);
        AnsweredStream(s, e.post, e.reply, c);
      } else {
        HeldUnread(s, e, c, h);
      }
    }
  }

  lemma SourceCame(s: State, what: Happening, c: ServerConnection, r: State, h: Handle)
    requires Inv(s) && Lives(s, what, c, r) && r.conns[c].source == Some(h)
    ensures if what.Answered? then h == s.next && h !in s.streams else s.conns[c].source == Some(h)
  {
  }

  lemma HeldUnread(s: State, e: Event, c: ServerConnection, h: Handle)
    requires Inv(s) && ResumeOk(s) && Enabled(s, e) && Current(s, c) && s.conns[c].source == Some(h)
    requires c in Step(s, e).conns && Step(s, e).conns[c].cursor.None?
    ensures h in s.streams && h in Step(s, e).streams && s.conns[c].cursor.None?
    ensures Step(s, e).streams[h].after == s.streams[h].after
  {
    StreamsStay(s, e);
    CursorNeverGoesBack(s, e, c);
    if e == StreamMessage(h) { ReadingSetsCursor(s, h, c); }
  }

  lemma {:induction false} RunUnread(events: seq<Event>, c: ServerConnection, h: Handle)
    ensures Unread(Run(Init, events), c, h, MadeAt(events, h))
    decreases |events|
  {
    if events != [] {
      var init, e := events[..|events| - 1], events[|events| - 1];
      RunUnread(init, c, h);
      EveryRunKeeps(init);
      EveryRunResumes(init);
      if Enabled(Run(Init, init), e) {
        if h !in Run(Init, init).streams { FirstHeld(init, c, h, MadeAt(events, h)); }
        StepUnread(Run(Init, init), e, c, h, MadeAt(events, h));
      }
    }
  }

  lemma FirstHeld(before: seq<Event>, c: ServerConnection, h: Handle, at: int)
    requires h !in Run(Init, before).streams
    ensures Unread(Run(Init, before), c, h, at)
  {
  }

  // ---- What gives a connection its beginning ----

  /** Its origin after the event, when something follows the position of its stream iff `more`. */
  ghost function OriginAfter(s: State, e: Event, c: ServerConnection, at: int, more: bool): Option<int>
    requires c in s.conns
  {
    if s.conns[c].origin.Some? then s.conns[c].origin
    else if AnsweredWith(s, e, c) then Some(e.reply.cursor.value)
    else if more then Some(at)
    else None
  }

  lemma AdoptOrigin(v: Conn, session: Option<string>, cursor: Option<nat>)
    requires v.cursor.None? <==> v.origin.None?
    ensures AdoptSession(v, session, cursor).origin
            == if v.origin.Some? then v.origin else if cursor.Some? then Some(cursor.value) else None
  {
  }

  lemma ReconnectKeepsHistory(s: State, c: ServerConnection)
    requires c in s.conns
    ensures var r := ReconnectGateway(s, c);
            c in r.conns && r.conns[c].session == s.conns[c].session && r.conns[c].origin == s.conns[c].origin
  {
  }

  lemma OpenedHistory(s: State, c: ServerConnection, v: Conn)
    requires c in s.conns
    ensures var r := OpenStream(Put(s, c, v), c);
            c in r.conns && r.conns[c].origin == v.origin && r.conns[c].session == v.session
  {
  }

  lemma LostHistory(s: State, c: ServerConnection, v: Conn)
    requires c in s.conns
    ensures var r := SessionLost(Put(s, c, v), c);
            c in r.conns && r.conns[c].origin == v.origin && r.conns[c].session == v.session
  {
    ReconnectKeepsHistory(Put(Put(s, c, v), c, v.(connecting := false, connected := false)), c);
  }

  /** The answer to the request of a live connection leaves the session and beginning that it adopts. */
  lemma AnswerHistory(s: State, p: Handle, reply: Reply, c: ServerConnection)
    requires Current(s, c) && s.conns[c].allow && p in s.posts && s.posts[p] == c
    ensures var r := DoPostDone(s, p, reply);
            var v := if reply.SessionFailed? then s.conns[c]
                     else AdoptSession(s.conns[c], reply.session, reply.cursor);
            c in r.conns && r.conns[c].origin == v.origin && r.conns[c].session == v.session
  {
    var s0 := s.(posts := s.posts - {p});
    match reply
    case SessionOk(session, cursor) => OpenedHistory(s0, c, AdoptSession(s.conns[c], session, cursor));
    case OpenFailed(session, cursor) => LostHistory(s0, c, AdoptSession(s.conns[c], session, cursor));
    case SessionFailed => LostHistory(s0, c, s.conns[c]);
  }

  lemma OwnAnswerOrigin(s: State, p: Handle, reply: Reply, c: ServerConnection)
    requires Current(s, c) && s.conns[c].allow && p in s.posts && s.posts[p] == c
    requires s.conns[c].cursor.None? <==> s.conns[c].origin.None?
    ensures c in DoPostDone(s, p, reply).conns
    ensures DoPostDone(s, p, reply).conns[c].origin
            == if s.conns[c].origin.Some? then s.conns[c].origin
               else if !reply.SessionFailed? && reply.cursor.Some? then Some(reply.cursor.value) else None
  {
    AnswerHistory(s, p, reply, c);
    if !reply.SessionFailed? { AdoptOrigin(s.conns[c], reply.session, reply.cursor); }
  }

  lemma AnswerOrigin(s: State, p: Handle, reply: Reply, c: ServerConnection)
    requires Inv(s) && ResumeOk(s) && p in s.posts && c in s.conns
    ensures c in DoPostDone(s, p, reply).conns
    ensures DoPostDone(s, p, reply).conns[c].origin == OriginAfter(s, PostDone(p, reply), c, 0, false)
  {
    assert HistoryOk(Log(s, s.conns[c].serverUrl), s.conns[c]);
    if c == s.posts[p] && Current(s, c) {
      OwnAnswerOrigin(s, p, reply, c);
    } else {
      OtherAnswer(s, p, reply, c);
    }
  }

  lemma OtherAnswer(s: State, p: Handle, reply: Reply, c: ServerConnection)
    requires Inv(s) && p in s.posts && c in s.conns && (c != s.posts[p] || !Current(s, c))
    ensures c in DoPostDone(s, p, reply).conns && DoPostDone(s, p, reply).conns[c] == s.conns[c]
  {
    PostDoneKeeps(s, p, reply);
  }

  lemma ReadOrigin(s: State, h: Handle, c: ServerConnection)
    requires Holds(s, h, c)
    ensures c in DoStreamMessage(s, h).conns
    ensures DoStreamMessage(s, h).conns[c].origin
            == if s.conns[c].origin.None? && NextEntry(s, h).Some? then Some(s.streams[h].after) else s.conns[c].origin
  {
    if NextEntry(s, h).Some? {
      var entry := NextEntry(s, h).value;
      HandlePayloadKept(Received(s, h, entry), c, entry.op);
      assert DoStreamMessage(s, h) == HandlePayload(Received(s, h, entry), c, entry.op);
    }
  }

  lemma MessageOrigin(s: State, h: Handle, c: ServerConnection)
    requires Inv(s) && h in s.streams && c in s.conns
    ensures c in DoStreamMessage(s, h).conns
    ensures DoStreamMessage(s, h).conns[c].origin
            == OriginAfter(s, StreamMessage(h), c, s.streams[h].after, Holds(s, h, c) && NextEntry(s, h).Some?)
  {
    StreamMessageKeeps(s, h);
    if Holds(s, h, c) { ReadOrigin(s, h, c); }
  }

  lemma StepOrigin(s: State, e: Event, c: ServerConnection)
    requires Inv(s) && ResumeOk(s) && Enabled(s, e) && c in s.conns
    ensures c in Step(s, e).conns
    ensures var read := e.StreamMessage? && Holds(s, e.h, c) && NextEntry(s, e.h).Some?;
            Step(s, e).conns[c].origin == OriginAfter(s, e, c, if read then s.streams[e.h].after else 0, read)
  {
    if e.PostDone? {
      AnswerOrigin(s, e.post, e.reply, c);
    } else if e.StreamMessage? {
      MessageOrigin(s, e.h, c);
    } else if e.ServerEmits? {
      EmissionKeepsConns(s, e);
    } else {
      OtherEventsKept(s, e);
    }
  }

  lemma GetsIff(s: State, e: Event, c: ServerConnection)
    requires e.StreamMessage? && Holds(s, e.h, c)
    ensures GetsAfter(s, e, c, s.streams[e.h].after) <==> NextEntry(s, e.h).Some?
  {
  }

  lemma NewOrigin(s: State, e: Event, c: ServerConnection)
    requires Inv(s) && Enabled(s, e) && c !in s.conns && c in Step(s, e).conns
    ensures Step(s, e).conns[c].origin.None?
  {
    NewIsBorn(s, e, c);
    if e.ConnectServer? || e.AuthDone? || e.ConnectLocal? { OtherEventsKept(s, e); }
  }

  ghost predicate BeginsAt(s: State, c: ServerConnection, at: Option<int>) {
    if c in s.conns then s.conns[c].origin == at else at.None?
  }

  lemma ReadBegins(before: seq<Event>, h: Handle, c: ServerConnection)
    requires Holds(Run(Init, before), h, c) && Run(Init, before).conns[c].origin.None?
    ensures var s := Run(Init, before);
            && s.streams[h].after == MadeAt(before, h)
            && (GetsAfter(s, StreamMessage(h), c, MadeAt(before, h)) <==> NextEntry(s, h).Some?)
  {
    var s := Run(Init, before);
    EveryRunResumes(before);
    RunUnread(before, c, h);
    assert HistoryOk(Log(s, s.conns[c].serverUrl), s.conns[c]);
    GetsIff(s, StreamMessage(h), c);
  }

  lemma KnownBegins(before: seq<Event>, e: Event, c: ServerConnection)
    requires Enabled(Run(Init, before), e) && BeginsAt(Run(Init, before), c, Beginning(before, c))
    requires c in Run(Init, before).conns
    ensures BeginsAt(Step(Run(Init, before), e), c, Beginning(before + [e], c))
  {
    var s := Run(Init, before);
    EveryRunKeeps(before);
    EveryRunResumes(before);
    assert (before + [e])[..|before|] == before;
    StepOrigin(s, e, c);
    if e.StreamMessage? && Holds(s, e.h, c) && s.conns[c].origin.None? { ReadBegins(before, e.h, c); }
  }

  lemma StepBegins(before: seq<Event>, e: Event, c: ServerConnection)
    requires Enabled(Run(Init, before), e) && BeginsAt(Run(Init, before), c, Beginning(before, c))
    ensures BeginsAt(Step(Run(Init, before), e), c, Beginning(before + [e], c))
  {
    var s := Run(Init, before);
    EveryRunKeeps(before);
    assert (before + [e])[..|before|] == before;
    if c in s.conns {
      KnownBegins(before, e, c);
    } else if c in Step(s, e).conns {
      NewOrigin(s, e, c);
    }
  }

  lemma {:induction false} BeginningIs(events: seq<Event>, c: ServerConnection)
    ensures BeginsAt(Run(Init, events), c, Beginning(events, c))
    decreases |events|
  {
    if events != [] {
      var init, e := events[..|events| - 1], events[|events| - 1];
      BeginningIs(init, c);
      assert events == init + [e];
      if Enabled(Run(Init, init), e) { StepBegins(init, e, c); } else { NothingBegins(init, e, c); }
    }
  }

  lemma NothingBegins(before: seq<Event>, e: Event, c: ServerConnection)
    requires !Enabled(Run(Init, before), e)
    ensures Beginning(before + [e], c) == Beginning(before, c)
  {
    assert (before + [e])[..|before|] == before;
    EveryRunKeeps(before);
  }

  // ---- Exactly once ----

  /** handled is log[a..b], where a is the first entry with an id above `first` and b the first above `last`. */
  ghost predicate IsSegment(log: seq<Entry>, handled: seq<Entry>, first: int, last: int, a: int, b: int) {
    && 0 <= a <= b <= |log| && handled == log[a..b]
    && (forall i :: 0 <= i < a ==> log[i].id <= first)
    && (forall i :: a <= i < b ==> first < log[i].id <= last)
    && (forall i :: b <= i < |log| ==> last < log[i].id)
  }

  /** The history v is the segment of the log after `first`, if there is a beginning, and empty otherwise. */
  ghost predicate Complete(log: seq<Entry>, v: Conn, first: Option<int>) {
    match first
    case None => v.handled == [] && v.cursor.None?
    case Some(k) =>
      && v.cursor == Some(if v.handled == [] then k else v.handled[|v.handled| - 1].id)
      && exists a, b :: IsSegment(log, v.handled, k, v.cursor.value, a, b)
  }

  lemma LastHandled(log: seq<Entry>, v: Conn)
    requires Increasing(log) && HistoryOk(log, v) && v.cursor.Some?
    ensures v.cursor == Some(if v.handled == [] then v.origin.value else v.handled[|v.handled| - 1].id)
  {
    if v.cursor.value != v.origin.value {
      var i :| 0 <= i < |log| && log[i].id == v.cursor.value;
      UpToEntry(log, i);
    }
  }

  lemma SegmentOf(log: seq<Entry>, v: Conn)
    requires Increasing(log) && HistoryOk(log, v) && v.cursor.Some?
    ensures IsSegment(log, v.handled, v.origin.value, v.cursor.value,
                      UpTo(log, v.origin.value), UpTo(log, v.cursor.value))
  {
  }

  lemma HistoryComplete(log: seq<Entry>, v: Conn)
    requires Increasing(log) && HistoryOk(log, v)
    ensures Complete(log, v, v.origin)
  {
    if v.cursor.Some? {
      LastHandled(log, v);
      SegmentOf(log, v);
    }
  }

  /** Exactly once: in every run the payloads a connection has handled are the log entries after its beginning up to its
      present cursor, each of them once and in order.  The cursor is the id of the last of them, or the beginning. */
  lemma ExactlyOnce(events: seq<Event>, c: ServerConnection)
    requires c in Run(Init, events).conns
    ensures var s := Run(Init, events); Complete(Log(s, s.conns[c].serverUrl), s.conns[c], Beginning(events, c))
  {
    EveryRunResumes(events);
    BeginningIs(events, c);
    var s := Run(Init, events);
    assert HistoryOk(Log(s, s.conns[c].serverUrl), s.conns[c]);
    HistoryComplete(Log(s, s.conns[c].serverUrl), s.conns[c]);
  }

  // ---- The session ----

  function WordOf(op: Op): Option<Option<string>> {
    match op
    case Ready(session) => Some(session)
    case InvalidSession => Some(None)
    case _ => None
  }

  /** What the event says of the session of the live connection c: an answer that names one, READY, INVALID_SESSION. */
  function SessionWord(s: State, e: Event, c: ServerConnection): Option<Option<string>> {
    match e
    case PostDone(p, reply) =>
      if p in s.posts && s.posts[p] == c && Current(s, c) && !reply.SessionFailed? && reply.session.Some?
         && reply.session.value != ""
      then Some(reply.session) else None
    case StreamMessage(h) =>
      if !Holds(s, h, c) || NextEntry(s, h).None? then None
      else WordOf(NextEntry(s, h).value.op)
    case _ => None
  }

  /** The last word of the run on the session of c. */
  function SessionSaid(events: seq<Event>, c: ServerConnection): Option<string>
    decreases |events|
  {
    if events == [] then None
    else
      var init, e := events[..|events| - 1], events[|events| - 1];
      match SessionWord(Run(Init, init), e, c)
      case Some(session) => session
      case None => SessionSaid(init, c)
  }

  lemma DropKeepsSession(s: State, c: ServerConnection)
    requires c in s.conns
    ensures c in DropAndRetry(s, c).conns && DropAndRetry(s, c).conns[c].session == s.conns[c].session
  {
    var s1 := CloseSource(s, c);
    ReconnectKeepsHistory(Put(s1, c, s1.conns[c].(connected := false, connecting := false)), c);
  }

  lemma AnswerSession(s: State, p: Handle, reply: Reply, c: ServerConnection)
    requires Current(s, c) && s.conns[c].allow && p in s.posts && s.posts[p] == c
    ensures c in DoPostDone(s, p, reply).conns
    ensures DoPostDone(s, p, reply).conns[c].session
            == if !reply.SessionFailed? && reply.session.Some? && reply.session.value != "" then reply.session
               else s.conns[c].session
  {
    AnswerHistory(s, p, reply, c);
  }

  lemma MessageSession(s: State, h: Handle, c: ServerConnection)
    requires Holds(s, h, c)
    ensures c in DoStreamMessage(s, h).conns
    ensures DoStreamMessage(s, h).conns[c].session
            == match SessionWord(s, StreamMessage(h), c) case Some(session) => session case None => s.conns[c].session
  {
    if NextEntry(s, h).Some? {
      var entry := NextEntry(s, h).value;
      var s1 := Received(s, h, entry);
      assert DoStreamMessage(s, h) == HandlePayload(s1, c, entry.op) && s1.conns[c].session == s.conns[c].session;
      match entry.op
      case Reconnect => DropKeepsSession(s1, c);
      case InvalidSession => DropKeepsSession(Put(s1, c, s1.conns[c].(session := None)), c);
      case _ =>
    }
  }

  lemma CallSession(s: State, e: Event, c: ServerConnection)
    requires Inv(s) && Enabled(s, e) && Current(s, c) && Asks(s, e, c)
    ensures c in Step(s, e).conns && Step(s, e).conns[c].session == s.conns[c].session
  {
    ConnectKeepsSession(Put(s, c, s.conns[c].(allow := true)), c);
  }

  ghost predicate Hears(s: State, e: Event, c: ServerConnection, r: State)
    requires c in s.conns
  {
    var word := SessionWord(s, e, c);
    c in r.conns && r.conns[c].session == if word.Some? then word.value else s.conns[c].session
  }

  lemma PostHears(s: State, p: Handle, reply: Reply, c: ServerConnection)
    requires Inv(s) && Current(s, c) && p in s.posts && s.posts[p] == c
    ensures Hears(s, PostDone(p, reply), c, DoPostDone(s, p, reply))
  {
    AnswerSession(s, p, reply, c);
  }

  lemma MessageHears(s: State, h: Handle, c: ServerConnection)
    requires Inv(s) && Current(s, c) && h in s.streams && s.streams[h].conn == c
    ensures Hears(s, StreamMessage(h), c, DoStreamMessage(s, h))
  {
    if Holds(s, h, c) { MessageSession(s, h, c); }
  }

  lemma TimerHears(s: State, t: Handle, c: ServerConnection)
    requires Inv(s) && Current(s, c) && t in s.timers && s.timers[t].conn == c
    ensures Hears(s, TimerFires(t), c, DoTimerFires(s, t))
  {
    var s1 := Put(s, c, s.conns[c].(timer := None)).(timers := s.timers - {t});
    ConnectKeepsSession(s1, c);
    assert DoTimerFires(s, t) == ConnectRealtime(s1, c);
  }

  lemma ErrorHears(s: State, h: Handle, c: ServerConnection)
    requires Inv(s) && Current(s, c) && h in s.streams && s.streams[h].conn == c
    ensures Hears(s, StreamError(h), c, DoStreamError(s, h))
  {
    DropKeepsSession(s, c);
  }

  lemma OpenHears(s: State, h: Handle, c: ServerConnection)
    requires Inv(s) && Current(s, c) && h in s.streams && s.streams[h].conn == c
    ensures Hears(s, StreamOpen(h), c, DoStreamOpen(s, h))
  {
  }

  lemma CallbackSession(s: State, e: Event, c: ServerConnection)
    requires Inv(s) && Enabled(s, e) && Current(s, c) && BelongsTo(s, e, c)
    ensures Hears(s, e, c, Step(s, e))
  {
    match e
    case PostDone(p, reply) => PostHears(s, p, reply, c);
    case StreamOpen(h) => OpenHears(s, h, c);
    case StreamMessage(h) => MessageHears(s, h, c);
    case StreamError(h) => ErrorHears(s, h, c);
    case TimerFires(t) => TimerHears(s, t, c);
  }

  lemma StepSession(s: State, e: Event, c: ServerConnection)
    requires Inv(s) && Enabled(s, e) && c in s.conns
    ensures Hears(s, e, c, Step(s, e))
  {
    if !Current(s, c) {
      RetiredForGood(s, e, c);
    } else if BelongsTo(s, e, c) {
      CallbackSession(s, e, c);
    } else if Asks(s, e, c) {
      CallSession(s, e, c);
    } else if !Concerns(s, e, c) {
      OthersLeave(s, e, c);
    }
  }

  ghost predicate SessionIs(s: State, c: ServerConnection, session: Option<string>) {
    if c in s.conns then s.conns[c].session == session else session.None?
  }

  /** In every run a connection's session is the one of the last answer or READY that named one, and none after an
      INVALID_SESSION. */
  lemma {:induction false} SessionThroughRun(events: seq<Event>, c: ServerConnection)
    ensures SessionIs(Run(Init, events), c, SessionSaid(events, c))
    decreases |events|
  {
    if events != [] {
      var init, e := events[..|events| - 1], events[|events| - 1];
      var s := Run(Init, init);
      SessionThroughRun(init, c);
      EveryRunKeeps(init);
      if Enabled(s, e) {
        if c in s.conns {
          StepSession(s, e, c);
        } else if c in Step(s, e).conns {
          NewIsBorn(s, e, c);
        }
      }
    }
  }

  // ---- Tokens and tasks ----

  /** What the event says of the token for id: the server list, the local token, a successful authentication. */
  function TokenWord(s: State, e: Event, id: string): Option<bool> {
    match e
    case SetServer(x, server) => if x == id && id != LOCAL_SERVER_ID then Some(server.token) else None
    case RemoveServer(x) => if x == id && id != LOCAL_SERVER_ID then Some(false) else None
    case SetLocalToken(present) => if id == LOCAL_SERVER_ID then Some(present) else None
    case AuthDone(x, ok, _) =>
      if ok && (id == LOCAL_SERVER_ID || (x == id && id in s.servers)) then Some(true) else None
    case _ => None
  }

  lemma AuthTokens(s: State, e: Event, id: string)
    requires Inv(s) && Enabled(s, e) && e.AuthDone?
    ensures HasToken(Step(s, e), id)
            <==> HasToken(s, id) || (e.ok && (id == LOCAL_SERVER_ID || (e.id == id && id in s.servers)))
  {
    if e.ok {
      var servers := if e.id in s.servers then s.servers[e.id := s.servers[e.id].(token := true)] else s.servers;
      var s1 := s.(inFlight := s.inFlight[e.id := Settled], localToken := true, servers := servers);
      AuthCreates(s, s1, e.id, e.made);
      CreateWorld(s1, e.id, s.inFlight[e.id].url, e.made.value);
    }
  }

  lemma StepToken(s: State, e: Event, id: string)
    requires Inv(s) && Enabled(s, e)
    ensures HasToken(Step(s, e), id) <==> match TokenWord(s, e, id) case Some(b) => b case None => HasToken(s, id)
  {
    if IsCallback(e) {
      CallbacksKeepAround(s, e);
    } else {
      match e
      case ConnectServer(x, can, made) => ConnectServerWorld(s, x, can, made);
      case AuthDone(_, _, _) => AuthTokens(s, e, id);
      case ConnectLocal(url, made) => LocalWorld(s, url, made);
      case DisconnectServer(x) => DisconnectKeepsAround(s, x);
      case _ =>
    }
  }

  predicate TokenSaid(events: seq<Event>, id: string)
    decreases |events|
  {
    events != [] &&
    (var init, e := events[..|events| - 1], events[|events| - 1];
     var word := if Enabled(Run(Init, init), e) then TokenWord(Run(Init, init), e, id) else None;
     if word.Some? then word.value else TokenSaid(init, id))
  }

  /** In every run the token for a server is there iff the last event that says anything about it says so. */
  lemma {:induction false} TokenThroughRun(events: seq<Event>, id: string)
    ensures HasToken(Run(Init, events), id) <==> TokenSaid(events, id)
    decreases |events|
  {
    if events != [] {
      var init, e := events[..|events| - 1], events[|events| - 1];
      TokenThroughRun(init, id);
      EveryRunKeeps(init);
      if Enabled(Run(Init, init), e) { StepToken(Run(Init, init), e, id); }
    }
  }

  /** The event makes a call for id that waits for authentication. */
  predicate Challenges(s: State, e: Event, id: string) {
    && e.ConnectServer? && e.id == id && e.canUseChallengeAuth && id !in s.inFlight && id !in s.connections
    && id in s.servers && !s.servers[id].token
  }

  predicate Authenticates(s: State, id: string) {
    id in s.inFlight && s.inFlight[id].Authenticating?
  }

  ghost predicate TasksMove(s: State, e: Event, id: string, r: State) {
    && (id in r.inFlight <==>
          (id in s.inFlight && e != TaskSettled(id)) || (e.ConnectServer? && e.id == id)
          || (e.ConnectLocal? && id == LOCAL_SERVER_ID))
    && (Authenticates(r, id) <==>
          (Authenticates(s, id) && !(e.AuthDone? && e.id == id)) || Challenges(s, e, id))
    && (Challenges(s, e, id) ==> r.inFlight[id] == Authenticating(s.servers[id].url))
    && (Authenticates(r, id) && !Challenges(s, e, id) ==> r.inFlight[id] == s.inFlight[id])
  }

  lemma RejoinTask(s: State, id: string, can: bool, made: Option<ServerConnection>)
    requires Inv(s) && id in s.connections && id !in s.inFlight
    ensures DoConnectServer(s, id, can, made).inFlight == s.inFlight[id := Settled]
  {
    RejoinTasks(s, id);
  }

  lemma CreateTask(s: State, id: string, can: bool, made: Option<ServerConnection>)
    requires Inv(s) && New(s, made) && made.Some? && Creates(s, id)
    ensures DoConnectServer(s, id, can, made).inFlight == s.inFlight[id := Settled]
  {
    CreateKeepsTasks(s, id, s.servers[id].url, made.value);
  }

  lemma NoTask(s: State, id: string, can: bool, made: Option<ServerConnection>)
    requires id !in s.connections && id !in s.inFlight && !Creates(s, id)
    ensures DoConnectServer(s, id, can, made).inFlight
            == s.inFlight[id := if id in s.servers && can then Authenticating(s.servers[id].url) else Settled]
  {
    if id !in s.servers {
      assert DoConnectServer(s, id, can, made) == s.(inFlight := s.inFlight[id := Settled]);
    } else {
      assert DoConnectServer(s, id, can, made)
             == s.(inFlight := s.inFlight[id := if can then Authenticating(s.servers[id].url) else Settled]);
    }
  }

  lemma ServerTask(s: State, e: Event, id: string)
    requires Inv(s) && Enabled(s, e) && e.ConnectServer? && e.id == id && id !in s.inFlight
    ensures DoConnectServer(s, id, e.canUseChallengeAuth, e.made).inFlight
            == s.inFlight[id := if Challenges(s, e, id) then Authenticating(s.servers[id].url) else Settled]
  {
    if id in s.connections {
      RejoinTask(s, id, e.canUseChallengeAuth, e.made);
    } else if Creates(s, id) {
      CreateTask(s, id, e.canUseChallengeAuth, e.made);
    } else {
      NoTask(s, id, e.canUseChallengeAuth, e.made);
    }
  }

  lemma ServerTasks(s: State, e: Event, id: string)
    requires Inv(s) && Enabled(s, e) && e.ConnectServer?
    ensures TasksMove(s, e, id, Step(s, e))
  {
    if e.id !in s.inFlight { ServerTask(s, e, e.id); }
  }

  lemma AuthTask(s: State, id: string, ok: bool, made: Option<ServerConnection>)
    requires Inv(s) && New(s, made) && (made.Some? <==> ok) && Authenticates(s, id)
    ensures DoAuthDone(s, id, ok, made).inFlight == s.inFlight[id := Settled]
  {
    if ok {
      var servers := if id in s.servers then s.servers[id := s.servers[id].(token := true)] else s.servers;
      var s1 := s.(inFlight := s.inFlight[id := Settled], localToken := true, servers := servers);
      OutsideKeeps(s, s1);
      AuthCreates(s, s1, id, made);
      CreateKeepsTasks(s1, id, s.inFlight[id].url, made.value);
    }
  }

  lemma AuthTasks(s: State, e: Event, id: string)
    requires Inv(s) && Enabled(s, e) && e.AuthDone?
    ensures TasksMove(s, e, id, Step(s, e))
  {
    AuthTask(s, e.id, e.ok, e.made);
  }

  lemma LocalTasks(s: State, e: Event, id: string)
    requires Inv(s) && Enabled(s, e) && e.ConnectLocal?
    ensures TasksMove(s, e, id, Step(s, e))
  {
    if LOCAL_SERVER_ID in s.inFlight || !s.localToken {
    } else if LOCAL_SERVER_ID in s.connections {
      RejoinTasks(s, LOCAL_SERVER_ID);
    } else if e.made.Some? {
      CreateKeepsTasks(s, LOCAL_SERVER_ID, e.url, e.made.value);
    }
  }

  /** A server is in the map of those that are connecting from a call for it until its task has settled, and waits for
      authentication, under the URL listed then, iff the call found no connection and no token and can answer a
      challenge, until the answer comes. */
  lemma TasksIff(s: State, e: Event, id: string)
    requires Inv(s) && Enabled(s, e)
    ensures TasksMove(s, e, id, Step(s, e))
  {
    if IsCallback(e) {
      CallbacksKeepAround(s, e);
    } else {
      match e
      case ConnectServer(_, _, _) => ServerTasks(s, e, id);
      case AuthDone(_, _, _) => AuthTasks(s, e, id);
      case ConnectLocal(_, _) => LocalTasks(s, e, id);
      case DisconnectServer(x) => DisconnectKeepsAround(s, x);
      case _ =>
    }
  }

  // ---- URLs ----

  /** Normalizing a URL strips the slashes at its end, all of them and nothing else. */
  lemma {:induction false} NormalizeIs(url: string)
    ensures Normalize(url) <= url
    ensures forall i :: |Normalize(url)| <= i < |url| ==> url[i] == '/'
    ensures Normalize(url) != "" ==> Normalize(url)[|Normalize(url)| - 1] != '/'
    decreases |url|
  {
    if url != "" && url[|url| - 1] == '/' { NormalizeIs(url[..|url| - 1]); }
  }
}
