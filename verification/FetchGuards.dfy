/** The guards around overlapping fetches in client/src/stores/messageStore.ts and client/src/stores/channelStore.ts:
    who may run, who is aborted, and what a fetch cleans up when it ends. */
module FetchGuards {
  import opened Options

  /** A call that has not returned.  An aborted one still has to notice and clean up. */
  datatype Fetch = Fetch(key: string, aborted: bool)

  /** `guard` is the loading flag of the message store and the in-flight set of the channel store; `controllers` maps a
      key to the number of the fetch whose controller is kept for it. */
  datatype State = State(guard: set<string>, controllers: map<string, nat>, running: map<nat, Fetch>)

  function Init(): State { State({}, map[], map[]) }

  datatype Event = Start(key: string, id: nat) | Finish(id: nat) | Cancel(key: string)

  /** Its controller is kept for another key. */
  predicate AbortedBy(s: State, key: string, id: nat) {
    exists k :: k in s.controllers && k != key && s.controllers[k] == id
  }

  function Aborted(f: Fetch): Fetch { f.(aborted := true) }

  /** The loop that aborts and forgets every controller but the key's own. */
  function AbortOthers(s: State, key: string): State {
    s.(controllers := map k | k in s.controllers && k == key :: s.controllers[k],
       running := map id | id in s.running :: if AbortedBy(s, key, id) then Aborted(s.running[id]) else s.running[id])
  }

  function Enter(s: State, key: string, id: nat): State {
    State(s.guard + {key}, s.controllers[key := id], s.running[id := Fetch(key, false)])
  }

  function Leave(s: State, id: nat): State {
    if id !in s.running then s
    else
      var key := s.running[id].key;
      State(s.guard - {key}, s.controllers - {key}, s.running - {id})
  }

  function DoCancel(s: State, key: string): State {
    if key !in s.controllers then s
    else
      var id := s.controllers[key];
      State(s.guard, s.controllers - {key},
            if id in s.running then s.running[id := Aborted(s.running[id])] else s.running)
  }

  /** messageStore: a loading channel is left alone, and nothing is aborted. */
  function MessageStep(s: State, e: Event): State {
    match e
    case Start(key, id) =>
      if key in s.guard || id in s.running then s else Enter(AbortOthers(s, key), key, id)
    case Finish(id) => Leave(s, id)
    case Cancel(key) => DoCancel(s, key)
  }

  /** channelStore: the others are aborted first, and lose their place in the guard at once. */
  function Evict(s: State, key: string): State {
    AbortOthers(s, key).(guard := s.guard - (s.controllers.Keys - {key}))
  }

  function ChannelStep(s: State, e: Event): State {
    match e
    case Start(key, id) =>
      var t := Evict(s, key);
      if key in t.guard || id in s.running then t else Enter(t, key, id)
    case Finish(id) => Leave(s, id)
    case Cancel(_) => s
  }

  function MessageRun(events: seq<Event>): State {
    if events == [] then Init() else MessageStep(MessageRun(events[..|events| - 1]), events[|events| - 1])
  }

  function ChannelRun(events: seq<Event>): State {
    if events == [] then Init() else ChannelStep(ChannelRun(events[..|events| - 1]), events[|events| - 1])
  }

  predicate Live(s: State, id: nat) { id in s.running && !s.running[id].aborted }

  // ---- The loop ----

  method AbortLoop(s: State, key: string) returns (r: State)
    ensures r == AbortOthers(s, key)
  {
    var controllers, running := s.controllers, s.running;
    var todo := s.controllers.Keys;
    while todo != {}
      invariant todo <= s.controllers.Keys
      invariant controllers.Keys == todo + (s.controllers.Keys * {key})
      invariant forall k :: k in controllers ==> controllers[k] == s.controllers[k]
      invariant running.Keys == s.running.Keys
      invariant forall id :: id in running ==>
                  running[id] == if exists k :: k in s.controllers.Keys - todo && k != key && s.controllers[k] == id
                                 then Aborted(s.running[id]) else s.running[id]
      decreases todo
    {
      var k :| k in todo;
      if k != key {
        var id := s.controllers[k];
        if id in running { running := running[id := Aborted(running[id])]; }
        controllers := controllers - {k};
      }
      todo := todo - {k};
    }
    r := State(s.guard, controllers, running);
  }

  // ---- The message store ----

  ghost predicate Fetching(s: State, key: string) {
    exists id :: id in s.running && s.running[id].key == key
  }

  /** The guard names exactly the channels being fetched, one fetch each, and every live fetch can still be aborted. */
  ghost predicate MessageOk(s: State) {
    ControlsOk(s) && GuardOk(s)
  }

  ghost predicate GuardOk(s: State) {
    forall key :: key in s.guard ==> Fetching(s, key)
  }

  ghost predicate ControlsOk(s: State) {
    && (forall id :: id in s.running ==> s.running[id].key in s.guard)
    && (forall a, b :: a in s.running && b in s.running && s.running[a].key == s.running[b].key ==> a == b)
    && (forall k :: k in s.controllers ==>
          s.controllers[k] in s.running && s.running[s.controllers[k]] == Fetch(k, false))
    && (forall id :: Live(s, id) ==> s.running[id].key in s.controllers)
    && (forall a, b :: a in s.controllers && b in s.controllers ==> a == b)
  }

  lemma MessageStepOk(s: State, e: Event)
    requires MessageOk(s)
    ensures MessageOk(MessageStep(s, e))
  {
    ControlsStep(s, e);
    forall key | key in MessageStep(s, e).guard ensures Fetching(MessageStep(s, e), key) { GuardStep(s, e, key); }
  }

  lemma ControlsStep(s: State, e: Event)
    requires ControlsOk(s)
    ensures ControlsOk(MessageStep(s, e))
  {
    if e.Start? && e.key !in s.guard && e.id !in s.running {
      StartOk(s, e.key, e.id);
    }
  }

  lemma GuardStep(s: State, e: Event, key: string)
    requires MessageOk(s) && key in MessageStep(s, e).guard
    ensures Fetching(MessageStep(s, e), key)
  {
    var r := MessageStep(s, e);
    if key in s.guard {
      var id :| id in s.running && s.running[id].key == key;
      assert id in r.running && r.running[id].key == key;
    } else {
      assert r.running[e.id].key == key;
    }
  }

  lemma StartOk(s: State, key: string, id: nat)
    requires ControlsOk(s) && key !in s.guard && id !in s.running
    ensures ControlsOk(Enter(AbortOthers(s, key), key, id))
  {
    var t := AbortOthers(s, key);
    assert key !in s.controllers;
    assert forall i :: Live(s, i) ==> AbortedBy(s, key, i);
    assert forall i :: i in t.running ==> t.running[i].key == s.running[i].key;
  }

  /** In every run of the message store at most one fetch of a channel is under way, aborted or not, and at most one
      fetch of all is live: two pages never land in one channel out of turn. */
  lemma {:induction false} MessageFetchesExclusive(events: seq<Event>)
    ensures MessageOk(MessageRun(events))
    ensures forall a, b :: Live(MessageRun(events), a) && Live(MessageRun(events), b) ==> a == b
    decreases |events|
  {
    if events != [] {
      MessageFetchesExclusive(events[..|events| - 1]);
      MessageStepOk(MessageRun(events[..|events| - 1]), events[|events| - 1]);
    }
  }

  /** The event begins fetch id: no fetch of the channel is under way. */
  ghost predicate Begins(s: State, e: Event, id: nat) {
    e.Start? && e.id == id && id !in s.running && !Fetching(s, e.key)
  }

  lemma BeginsIff(s: State, e: Event, id: nat)
    requires MessageOk(s)
    ensures Begins(s, e, id) <==> e.Start? && e.id == id && id !in s.running && e.key !in s.guard
  {
  }

  /** After any run of the message store, a fetch is under way from its beginning to its end, and live until then unless
      its channel is cancelled or the fetch of another channel begins: a start does nothing while a fetch of the channel
      is under way, and only then. */
  lemma MessageLiveIff(events: seq<Event>, e: Event, id: nat)
    ensures var s, r := MessageRun(events), MessageStep(MessageRun(events), e);
            && (id in r.running <==> Begins(s, e, id) || (id in s.running && e != Finish(id)))
            && (Live(r, id) <==>
                  || Begins(s, e, id)
                  || (Live(s, id) && e != Finish(id) && e != Cancel(s.running[id].key)
                      && !(e.Start? && Begins(s, e, e.id))))
            && (id in r.running && id in s.running ==> r.running[id].key == s.running[id].key)
            && (Begins(s, e, id) ==> r.running[id].key == e.key)
  {
    var s := MessageRun(events);
    MessageFetchesExclusive(events);
    BeginsIff(s, e, id);
    match e
    case Start(key, other) =>
      BeginsIff(s, e, other);
      if Begins(s, e, other) { StartLive(s, key, other, id); }
    case Finish(_) =>
    case Cancel(key) => CancelLive(s, key, id);
  }

  lemma StartLive(s: State, key: string, other: nat, id: nat)
    requires MessageOk(s) && key !in s.guard && other !in s.running
    ensures var r := Enter(AbortOthers(s, key), key, other);
            && (id in r.running <==> id == other || id in s.running) && (Live(r, id) <==> id == other)
            && (id in s.running ==> r.running[id].key == s.running[id].key) && r.running[other].key == key
  {
    if Live(s, id) {
      assert s.running[id].key in s.controllers && s.running[id].key != key;
      assert s.controllers[s.running[id].key] == id;
      assert AbortedBy(s, key, id);
    }
  }

  lemma CancelLive(s: State, key: string, id: nat)
    requires MessageOk(s)
    ensures var r := DoCancel(s, key);
            && (id in r.running <==> id in s.running)
            && (Live(r, id) <==> Live(s, id) && s.running[id].key != key)
            && (id in s.running ==> r.running[id].key == s.running[id].key)
  {
    if Live(s, id) {
      assert s.controllers[s.running[id].key] == id;
    }
  }

  // ---- The channel store ----

  /** A fetch of the guild was aborted and has not noticed. */
  ghost predicate Stale(s: State, key: string) {
    exists id :: id in s.running && s.running[id] == Fetch(key, true)
  }

  /** Guard, controllers and live fetches name the same guild, and there is only one. */
  ghost predicate ChannelOk(s: State) {
    && s.guard == s.controllers.Keys
    && (forall k :: k in s.controllers ==>
          s.controllers[k] in s.running && s.running[s.controllers[k]] == Fetch(k, false))
    && (forall id :: Live(s, id) ==> s.running[id].key in s.controllers && s.controllers[s.running[id].key] == id)
    && (forall a, b :: a in s.controllers && b in s.controllers ==> a == b)
    && (forall id :: id in s.running && s.running[id].aborted ==> s.running[id].key !in s.guard)
  }

  /** The start does not begin a second fetch of a guild whose aborted one is still unwinding. */
  ghost predicate Clean(s: State, e: Event) {
    e.Start? && e.id !in s.running ==> !Stale(s, e.key)
  }

  /** The guard, the controllers and the live fetches stay in step iff the event is clean. */
  lemma ChannelStepIff(s: State, e: Event)
    requires ChannelOk(s)
    ensures ChannelOk(ChannelStep(s, e)) <==> Clean(s, e)
  {
    match e
    case Start(key, id) =>
      EvictOk(s, key);
      if id !in s.running { EnterIff(Evict(s, key), key, id); }
    case Finish(id) =>
    case Cancel(_) =>
  }

  lemma EnterIff(s: State, key: string, id: nat)
    requires ChannelOk(s) && s.guard <= {key} && id !in s.running
    ensures key !in s.guard ==> (ChannelOk(Enter(s, key, id)) <==> !Stale(s, key))
    ensures key in s.guard ==> !Stale(s, key)
  {
    if key !in s.guard && Stale(s, key) {
      var before :| before in s.running && s.running[before] == Fetch(key, true);
      var t := Enter(s, key, id);
      assert t.running[before].aborted && t.running[before].key in t.guard;
    }
  }

  lemma EvictOk(s: State, key: string)
    requires ChannelOk(s)
    ensures ChannelOk(Evict(s, key)) && Evict(s, key).guard <= {key} && Evict(s, key).running.Keys == s.running.Keys
    ensures Stale(Evict(s, key), key) <==> Stale(s, key)
  {
    var t := Evict(s, key);
    forall i | i in t.running ensures t.running[i].key == s.running[i].key
                              && (t.running[i].aborted <==> s.running[i].aborted || AbortedBy(s, key, i)) {
    }
    if Stale(s, key) {
      var i :| i in s.running && s.running[i] == Fetch(key, true);
      assert t.running[i] == Fetch(key, true);
    }
  }

  ghost predicate AllClean(events: seq<Event>) {
    events == [] ||
    (AllClean(events[..|events| - 1]) && Clean(ChannelRun(events[..|events| - 1]), events[|events| - 1]))
  }

  /** In every run of the channel store in which no guild is fetched again before its aborted fetch has unwound, at most
      one fetch is live. */
  lemma {:induction false} CleanFetchesExclusive(events: seq<Event>)
    requires AllClean(events)
    ensures ChannelOk(ChannelRun(events))
    ensures forall a, b :: Live(ChannelRun(events), a) && Live(ChannelRun(events), b) ==> a == b
    decreases |events|
  {
    if events != [] {
      CleanFetchesExclusive(events[..|events| - 1]);
      ChannelStepIff(ChannelRun(events[..|events| - 1]), events[|events| - 1]);
    }
  }

  /** The event begins fetch id in the channel store: no live fetch of the guild is under way. */
  ghost predicate BeginsGuild(s: State, e: Event, id: nat) {
    e.Start? && e.id == id && id !in s.running && forall i :: Live(s, i) ==> s.running[i].key != e.key
  }

  /** After any clean run of the channel store, a fetch is under way from its beginning to its end, and live until then
      unless a fetch of another guild is asked for. */
  lemma GuildLiveIff(events: seq<Event>, e: Event, id: nat)
    requires AllClean(events) && Clean(ChannelRun(events), e)
    ensures var s, r := ChannelRun(events), ChannelStep(ChannelRun(events), e);
            && (id in r.running <==> BeginsGuild(s, e, id) || (id in s.running && e != Finish(id)))
            && (Live(r, id) <==>
                  || BeginsGuild(s, e, id)
                  || (Live(s, id) && e != Finish(id) && !(e.Start? && e.key != s.running[id].key)))
            && (id in r.running && id in s.running ==> r.running[id].key == s.running[id].key)
  {
    var s := ChannelRun(events);
    CleanFetchesExclusive(events);
    if e.Start? {
      EvictOk(s, e.key);
      EvictLive(s, e.key, id);
      GuardIsLive(s, e.key);
    }
  }

  lemma GuardIsLive(s: State, key: string)
    requires ChannelOk(s)
    ensures key in Evict(s, key).guard <==> exists i :: Live(s, i) && s.running[i].key == key
  {
    if key in s.guard {
      assert Live(s, s.controllers[key]);
    }
  }

  lemma EvictLive(s: State, key: string, id: nat)
    requires ChannelOk(s)
    ensures var t := Evict(s, key);
            && (id in t.running <==> id in s.running)
            && (Live(t, id) <==> Live(s, id) && s.running[id].key == key)
            && (id in s.running ==> t.running[id].key == s.running[id].key)
  {
    if Live(s, id) && s.running[id].key != key {
      assert AbortedBy(s, key, id);
    }
  }

  /** From any such state, fetching a guild again while its aborted fetch unwinds lets that fetch remove the new one's
      guard: one more start and two live fetches of the guild run at once, one of which nothing can abort. */
  lemma StaleFetchBreaksGuard(s: State, key: string, stale: nat, second: nat, third: nat)
    requires ChannelOk(s) && stale in s.running && s.running[stale] == Fetch(key, true)
    requires second !in s.running && third !in s.running && second != third
    ensures var t := ChannelStep(ChannelStep(ChannelStep(s, Start(key, second)), Finish(stale)), Start(key, third));
            Live(t, second) && Live(t, third) && t.running[second].key == t.running[third].key == key
            && forall k :: k in t.controllers ==> t.controllers[k] != second
  {
    var s1 := ChannelStep(s, Start(key, second));
    assert s1.running[second] == Fetch(key, false) && s1.running[stale] == Fetch(key, true);
    var s2 := ChannelStep(s1, Finish(stale));
    assert key !in s2.guard && s2.running[second] == Fetch(key, false) && third !in s2.running;
    assert s2.controllers.Keys == {};
  }

  /** Such a state is reached by opening guild a, then b, before the first fetch has noticed. */
  lemma StaleIsReachable(a: string, b: string)
    requires a != b
    ensures ChannelOk(ChannelRun([Start(a, 0), Start(b, 1)])) && Stale(ChannelRun([Start(a, 0), Start(b, 1)]), a)
  {
    var one, two := [Start(a, 0)], [Start(a, 0), Start(b, 1)];
    assert one[..0] == [] && two[..1] == one;
    ChannelStepIff(Init(), Start(a, 0));
    var s := ChannelRun(one);
    assert ChannelRun([]) == Init();
    assert s == ChannelStep(Init(), Start(a, 0)) == Enter(Evict(Init(), a), a, 0);
    assert s.controllers.Keys == {a} && s.controllers[a] == 0;
    assert s.running.Keys == {0} && s.running[0] == Fetch(a, false);
    assert !Stale(s, b);
    ChannelStepIff(s, Start(b, 1));
    assert AbortedBy(s, b, 0);
    assert ChannelRun(two).running[0] == Fetch(a, true);
  }
}
