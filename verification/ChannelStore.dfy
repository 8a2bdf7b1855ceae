/** The channel index of client/src/stores/channelStore.ts. */
module ChannelStore {
  import opened Options
  import opened Lists
  import opened Channels

  /** A reorder request that is under way, and the list it puts back when it fails. */
  datatype Pending = Pending(guild: string, prev: seq<Channel>)

  datatype State = State(
    byGuild: map<string, seq<Channel>>, channels: seq<Channel>, selected: Option<string>, pending: multiset<Pending>)

  function Init(): State { State(map[], [], None, multiset{}) }

  /** A new position, and a new parent when the request names one. */
  datatype Patch = Patch(id: string, position: int, parent: Option<Option<string>>)

  datatype Event =
    | Fetched(guild: string, data: seq<Channel>)
    | SelectGuild(choice: Option<string>)
    | SetChannels(list: seq<Channel>)
    | SetDmChannels(list: seq<Channel>)
    | CreateReply(guild: string, channel: Channel)
    | UpdateReply(id: string, channel: Channel)
    | DeleteReply(id: string)
    | Reorder(guild: string, positions: seq<Patch>)
    | ReorderDone(guild: string, prev: seq<Channel>)
    | ReorderFailed(guild: string, prev: seq<Channel>)
    | AddChannel(channel: Channel)
    | UpdateChannel(channel: Channel)
    | RemoveChannel(guild: string, id: string)
    | LastMessage(id: string, message: string)

  function OrElse<T>(a: Option<T>, b: Option<T>, c: T): T {
    if a.Some? then a.value else if b.Some? then b.value else c
  }

  /** normalizeChannel, on the modelled fields. */
  function Normalize(c: Channel): Channel {
    c.(kind := Some(OrElse(c.kind, c.channelType, 0)), channelType := Some(OrElse(c.channelType, c.kind, 0)))
  }

  function NormalizeAll(cs: seq<Channel>): (r: seq<Channel>)
    ensures |r| == |cs| && forall i :: 0 <= i < |cs| ==> r[i] == Normalize(cs[i])
  {
    seq(|cs|, i requires 0 <= i < |cs| => Normalize(cs[i]))
  }

  /** `normalized.guild_id || ''` */
  function GuildOf(c: Channel): string {
    if c.guild.Some? then c.guild.value else ""
  }

  function Of(byGuild: map<string, seq<Channel>>, g: string): seq<Channel> {
    if g in byGuild then byGuild[g] else []
  }

  predicate Has(cs: seq<Channel>, id: string) { exists i :: 0 <= i < |cs| && cs[i].id == id }

  function IdOf(x: Channel): string { x.id }

  /** `cs.filter((c) => c.id !== id)` */
  function Without(cs: seq<Channel>, id: string): seq<Channel> {
    if cs == [] then []
    else (if cs[0].id == id then [] else [cs[0]]) + Without(cs[1..], id)
  }

  /** `posMap.get(id)`: of several patches for one channel the last stays in the map. */
  function PatchFor(positions: seq<Patch>, id: string): (r: Option<Patch>)
    ensures r.Some? ==> r.value in positions && r.value.id == id
    decreases |positions|
  {
    if positions == [] then None
    else
      var last := positions[|positions| - 1];
      if last.id == id then Some(last) else PatchFor(positions[..|positions| - 1], id)
  }

  function Patched(c: Channel, positions: seq<Patch>): Channel {
    match PatchFor(positions, c.id)
    case None => c
    case Some(p) => c.(position := p.position, parent := if p.parent.Some? then p.parent.value else c.parent)
  }

  function PatchAll(cs: seq<Channel>, positions: seq<Patch>): (r: seq<Channel>)
    ensures |r| == |cs| && forall i :: 0 <= i < |cs| ==> r[i] == Patched(cs[i], positions)
  {
    seq(|cs|, i requires 0 <= i < |cs| => Patched(cs[i], positions))
  }

  /** A guild's new list, shown if the guild is selected. */
  function Put(s: State, g: string, list: seq<Channel>): State {
    s.(byGuild := s.byGuild[g := list], channels := if s.selected == Some(g) then list else s.channels)
  }

  function Selected(s: State): bool { s.selected.Some? && s.selected.value != "" }

  function DoDelete(s: State, id: string): State {
    s.(byGuild := map g | g in s.byGuild :: Without(s.byGuild[g], id), channels := Without(s.channels, id))
  }

  function Stamped(c: Channel, message: string): Channel { c.(lastMessage := Some(message)) }

  function StampAll(byGuild: map<string, seq<Channel>>, id: string, message: string): map<string, seq<Channel>> {
    map g | g in byGuild :: MapId(byGuild[g], IdOf, id, (c: Channel) => Stamped(c, message))
  }

  predicate Known(byGuild: map<string, seq<Channel>>, id: string) {
    exists g :: g in byGuild && Has(byGuild[g], id)
  }

  function DoLastMessage(s: State, id: string, message: string): State {
    if !Known(s.byGuild, id) then s
    else
      var stamped := StampAll(s.byGuild, id, message);
      s.(byGuild := stamped,
         channels := if Selected(s) && s.selected.value in stamped then stamped[s.selected.value] else s.channels)
  }

  predicate Enabled(s: State, e: Event) {
    e.ReorderDone? || e.ReorderFailed? ==> Pending(e.guild, e.prev) in s.pending
  }

  /** The guild whose list the event replaces, and the new list. */
  function NewList(s: State, e: Event): Option<(string, seq<Channel>)> {
    match e
    case Fetched(g, data) => Some((g, SortByPosition(NormalizeAll(data))))
    case CreateReply(g, c) => Some((g, SortByPosition(Of(s.byGuild, g) + [Normalize(c)])))
    case UpdateReply(id, c) => Some((GuildOf(c), MapId(Of(s.byGuild, GuildOf(c)), IdOf, id, _ => Normalize(c))))
    case Reorder(g, positions) => Some((g, SortByPosition(PatchAll(Of(s.byGuild, g), positions))))
    case ReorderFailed(g, prev) => Some((g, prev))
    case AddChannel(c) =>
      var list := Of(s.byGuild, GuildOf(c));
      if Has(list, c.id) then None else Some((GuildOf(c), SortByPosition(list + [Normalize(c)])))
    case UpdateChannel(c) =>
      Some((GuildOf(c), SortByPosition(MapId(Of(s.byGuild, GuildOf(c)), IdOf, c.id, _ => Normalize(c)))))
    case RemoveChannel(g, id) => Some((g, Without(Of(s.byGuild, g), id)))
    case _ => None
  }

  function PendingAfter(s: State, e: Event): multiset<Pending> {
    match e
    case Reorder(g, _) => s.pending + multiset{Pending(g, Of(s.byGuild, g))}
    case ReorderDone(g, prev) => s.pending - multiset{Pending(g, prev)}
    case ReorderFailed(g, prev) => s.pending - multiset{Pending(g, prev)}
    case _ => s.pending
  }

  function DoSelect(s: State, choice: Option<string>): State {
    s.(selected := choice,
       channels := if choice.Some? && choice.value != "" then Of(s.byGuild, choice.value) else [])
  }

  function DoSetDms(s: State, list: seq<Channel>): State {
    s.(byGuild := s.byGuild["" := NormalizeAll(list)],
       channels := if Selected(s) then s.channels else NormalizeAll(list))
  }

  function Step(s: State, e: Event): State {
    if !Enabled(s, e) then s
    else if NewList(s, e).Some? then
      Put(s, NewList(s, e).value.0, NewList(s, e).value.1).(pending := PendingAfter(s, e))
    else match e
      case SelectGuild(choice) => DoSelect(s, choice)
      case SetChannels(list) => s.(channels := list)
      case SetDmChannels(list) => DoSetDms(s, list)
      case DeleteReply(id) => DoDelete(s, id)
      case LastMessage(id, message) => DoLastMessage(s, id, message)
      case _ => s.(pending := PendingAfter(s, e))
  }

  function Run(s: State, events: seq<Event>): State
    decreases |events|
  {
    if events == [] then s else Step(Run(s, events[..|events| - 1]), events[|events| - 1])
  }

  // ---- updateLastMessageId as the source runs it ----

  method UpdateLastMessageId(s: State, id: string, message: string) returns (r: State)
    ensures r == Step(s, LastMessage(id, message))
  {
    var newByGuild: map<string, seq<Channel>> := map[];
    var found := false;
    var todo := s.byGuild.Keys;
    while todo != {}
      invariant todo <= s.byGuild.Keys && newByGuild.Keys == s.byGuild.Keys - todo
      invariant forall g :: g in newByGuild ==>
                  newByGuild[g] == MapId(s.byGuild[g], IdOf, id, (c: Channel) => Stamped(c, message))
      invariant found <==> exists g :: g in newByGuild && Has(s.byGuild[g], id)
      decreases todo
    {
      var g :| g in todo;
      var list, hit := StampList(s.byGuild[g], id, message);
      newByGuild := newByGuild[g := list];
      found := found || hit;
      todo := todo - {g};
    }
    if !found { return s; }
    assert newByGuild == StampAll(s.byGuild, id, message);
    var channels := s.channels;
    if Selected(s) && s.selected.value in newByGuild { channels := newByGuild[s.selected.value]; }
    return s.(byGuild := newByGuild, channels := channels);
  }

  method StampList(cs: seq<Channel>, id: string, message: string) returns (list: seq<Channel>, found: bool)
    ensures list == MapId(cs, IdOf, id, (c: Channel) => Stamped(c, message))
    ensures found <==> Has(cs, id)
  {
    list, found := [], false;
    for i := 0 to |cs|
      invariant |list| == i
      invariant forall k :: 0 <= k < i ==> list[k] == if cs[k].id == id then Stamped(cs[k], message) else cs[k]
      invariant found <==> exists k :: 0 <= k < i && cs[k].id == id
    {
      if cs[i].id == id {
        found := true;
        list := list + [Stamped(cs[i], message)];
      } else {
        list := list + [cs[i]];
      }
    }
  }

  // ---- The flat list is the selected guild's list ----

  ghost predicate Agrees(s: State) {
    Selected(s) ==> s.channels == Of(s.byGuild, s.selected.value)
  }

  /** Every reducer keeps the flat list equal to the selected guild's list, except setChannels with another list. */
  lemma StepAgreesIff(s: State, e: Event)
    requires Agrees(s)
    ensures Agrees(Step(s, e)) <==> (e.SetChannels? && Selected(s) ==> e.list == Of(s.byGuild, s.selected.value))
  {
    if NewList(s, e).Some? {
      PutAgrees(s, NewList(s, e).value.0, NewList(s, e).value.1);
    } else if e.LastMessage? && Selected(s) {
      UnknownStays(s, s.selected.value, e.id, e.message);
    }
  }

  lemma PutAgrees(s: State, g: string, list: seq<Channel>)
    requires Agrees(s)
    ensures Agrees(Put(s, g, list))
  {
  }

  lemma UnknownStays(s: State, g: string, id: string, message: string)
    ensures var f := (c: Channel) => Stamped(c, message);
            Of(DoLastMessage(s, id, message).byGuild, g) == MapId(Of(s.byGuild, g), IdOf, id, f)
  {
  }

  lemma {:induction false} RunAgrees(events: seq<Event>)
    requires forall i :: 0 <= i < |events| ==> !events[i].SetChannels?
    ensures Agrees(Run(Init(), events))
    decreases |events|
  {
    if events != [] {
      RunAgrees(events[..|events| - 1]);
      StepAgreesIff(Run(Init(), events[..|events| - 1]), events[|events| - 1]);
    }
  }

  // ---- One guild's list at a time ----

  /** What the event makes of the list of guild g. */
  function ListAfter(cs: seq<Channel>, g: string, e: Event): seq<Channel> {
    match e
    case Fetched(h, data) => if g == h then SortByPosition(NormalizeAll(data)) else cs
    case SetDmChannels(list) => if g == "" then NormalizeAll(list) else cs
    case CreateReply(h, c) => if g == h then SortByPosition(cs + [Normalize(c)]) else cs
    case UpdateReply(id, c) => if g == GuildOf(c) then MapId(cs, IdOf, id, _ => Normalize(c)) else cs
    case DeleteReply(id) => Without(cs, id)
    case Reorder(h, positions) => if g == h then SortByPosition(PatchAll(cs, positions)) else cs
    case ReorderFailed(h, prev) => if g == h then prev else cs
    case AddChannel(c) => if g == GuildOf(c) && !Has(cs, c.id) then SortByPosition(cs + [Normalize(c)]) else cs
    case UpdateChannel(c) => if g == GuildOf(c) then SortByPosition(MapId(cs, IdOf, c.id, _ => Normalize(c))) else cs
    case RemoveChannel(h, id) => if g == h then Without(cs, id) else cs
    case LastMessage(id, message) => MapId(cs, IdOf, id, (c: Channel) => Stamped(c, message))
    case _ => cs
  }

  lemma PutOf(s: State, g: string, list: seq<Channel>, h: string)
    ensures Of(Put(s, g, list).byGuild, h) == if h == g then list else Of(s.byGuild, h)
  {
  }

  lemma NewListRefines(s: State, g: string, e: Event)
    ensures match NewList(s, e)
            case Some((h, list)) => ListAfter(Of(s.byGuild, g), g, e) == if g == h then list else Of(s.byGuild, g)
            case None => true
  {
  }

  lemma StepRefines(s: State, g: string, e: Event)
    requires Enabled(s, e)
    ensures Of(Step(s, e).byGuild, g) == ListAfter(Of(s.byGuild, g), g, e)
  {
    if NewList(s, e).Some? {
      NewListRefines(s, g, e);
      PutOf(s, NewList(s, e).value.0, NewList(s, e).value.1, g);
    } else {
      OthersRefine(s, g, e);
    }
  }

  lemma OthersRefine(s: State, g: string, e: Event)
    requires Enabled(s, e) && NewList(s, e).None?
    ensures Of(Step(s, e).byGuild, g) == ListAfter(Of(s.byGuild, g), g, e)
  {
    match e
    case LastMessage(id, message) => UnknownStays(s, g, id, message);
    case _ =>
  }

  // ---- Ids stay unique ----

  lemma {:induction false} WithoutFrom(cs: seq<Channel>, id: string)
    ensures forall c :: c in Without(cs, id) <==> c in cs && c.id != id
    decreases |cs|
  {
    if cs != [] {
      WithoutFrom(cs[1..], id);
      assert cs == [cs[0]] + cs[1..];
    }
  }

  lemma {:induction false} WithoutKeeps(cs: seq<Channel>, id: string)
    ensures Unique(cs) ==> Unique(Without(cs, id))
    ensures Sorted(cs) ==> Sorted(Without(cs, id))
    decreases |cs|
  {
    if cs != [] {
      WithoutKeeps(cs[1..], id);
      WithoutFrom(cs[1..], id);
    }
  }

  lemma SortUnique(cs: seq<Channel>)
    ensures Unique(SortByPosition(cs)) <==> Unique(cs)
  {
    IdsSort(cs);
    UniqueIff(cs);
    UniqueIff(SortByPosition(cs));
  }

  lemma SameIdsUnique(a: seq<Channel>, b: seq<Channel>)
    requires |a| == |b| && forall i :: 0 <= i < |a| ==> a[i].id == b[i].id
    ensures Unique(a) <==> Unique(b)
  {
  }

  lemma AppendUnique(cs: seq<Channel>, c: Channel)
    requires Unique(cs)
    ensures Unique(cs + [c]) <==> !Has(cs, c.id)
  {
    if Has(cs, c.id) {
      var i :| 0 <= i < |cs| && cs[i].id == c.id;
      assert (cs + [c])[i].id == (cs + [c])[|cs|].id;
    }
  }

  lemma RenameUnique(cs: seq<Channel>, id: string, c: Channel)
    requires Unique(cs)
    ensures Unique(MapId(cs, IdOf, id, _ => c)) <==> !Has(cs, id) || c.id == id || !Has(cs, c.id)
  {
    var r := MapId(cs, IdOf, id, _ => c);
    if Has(cs, id) && c.id != id && Has(cs, c.id) {
      var i :| 0 <= i < |cs| && cs[i].id == id;
      var j :| 0 <= j < |cs| && cs[j].id == c.id;
      assert r[i].id == r[j].id;
    }
  }

  /** What an event must not bring: a repeated id in a fetched list, a created channel that is already there, or an
      update under the id of another channel. */
  ghost predicate Fits(cs: seq<Channel>, g: string, e: Event) {
    match e
    case Fetched(h, data) => g == h ==> Unique(data)
    case SetDmChannels(list) => g == "" ==> Unique(list)
    case CreateReply(h, c) => g == h ==> !Has(cs, c.id)
    case UpdateReply(id, c) => g == GuildOf(c) ==> !Has(cs, id) || c.id == id || !Has(cs, c.id)
    case _ => true
  }

  lemma AddedUnique(cs: seq<Channel>, c: Channel)
    requires Unique(cs)
    ensures Unique(SortByPosition(cs + [Normalize(c)])) <==> !Has(cs, c.id)
  {
    SortUnique(cs + [Normalize(c)]);
    AppendUnique(cs, Normalize(c));
  }

  lemma UpdatedUnique(cs: seq<Channel>, c: Channel)
    requires Unique(cs)
    ensures Unique(SortByPosition(MapId(cs, IdOf, c.id, _ => Normalize(c))))
  {
    SortUnique(MapId(cs, IdOf, c.id, _ => Normalize(c)));
    RenameUnique(cs, c.id, Normalize(c));
  }

  lemma PatchedUnique(cs: seq<Channel>, positions: seq<Patch>)
    requires Unique(cs)
    ensures Unique(SortByPosition(PatchAll(cs, positions)))
  {
    SortUnique(PatchAll(cs, positions));
    SameIdsUnique(cs, PatchAll(cs, positions));
  }

  lemma FetchedUnique(data: seq<Channel>)
    ensures Unique(SortByPosition(NormalizeAll(data))) <==> Unique(data)
  {
    SortUnique(NormalizeAll(data));
    SameIdsUnique(data, NormalizeAll(data));
  }

  lemma StepUniqueIff(cs: seq<Channel>, g: string, e: Event)
    requires Unique(cs) && (e.ReorderFailed? ==> Unique(e.prev))
    ensures Unique(ListAfter(cs, g, e)) <==> Fits(cs, g, e)
  {
    match e
    case Fetched(_, data) => FetchedUnique(data);
    case SetDmChannels(list) => SameIdsUnique(list, NormalizeAll(list));
    case CreateReply(_, c) => AddedUnique(cs, c);
    case UpdateReply(id, c) => RenameUnique(cs, id, Normalize(c));
    case DeleteReply(id) => WithoutKeeps(cs, id);
    case Reorder(_, positions) => PatchedUnique(cs, positions);
    case AddChannel(c) => AddedUnique(cs, c);
    case UpdateChannel(c) => UpdatedUnique(cs, c);
    case RemoveChannel(_, id) => WithoutKeeps(cs, id);
    case _ =>
  }

  /** The list of guild g, and every list that a failed reorder would put back, have unique ids. */
  ghost predicate UniqueIn(s: State, g: string) {
    Unique(Of(s.byGuild, g)) && forall p :: p in s.pending && p.guild == g ==> Unique(p.prev)
  }

  ghost predicate AllFit(events: seq<Event>, g: string)
    decreases |events|
  {
    events == [] ||
    (AllFit(events[..|events| - 1], g)
     && Fits(Of(Run(Init(), events[..|events| - 1]).byGuild, g), g, events[|events| - 1]))
  }

  lemma StepUniqueIn(s: State, g: string, e: Event)
    requires UniqueIn(s, g) && Fits(Of(s.byGuild, g), g, e)
    ensures UniqueIn(Step(s, e), g)
  {
    if Enabled(s, e) {
      StepRefines(s, g, e);
      if e.ReorderFailed? && e.guild != g {
        assert ListAfter(Of(s.byGuild, g), g, e) == Of(s.byGuild, g);
      } else {
        StepUniqueIff(Of(s.byGuild, g), g, e);
      }
      PendingFrom(s, e);
    }
  }

  lemma PendingFrom(s: State, e: Event)
    ensures forall p :: p in Step(s, e).pending ==>
              p in s.pending || (e.Reorder? && p == Pending(e.guild, Of(s.byGuild, e.guild)))
  {
  }

  /** No guild ever lists a channel twice, when what arrives fits. */
  lemma {:induction false} RunUnique(events: seq<Event>, g: string)
    requires AllFit(events, g)
    ensures UniqueIn(Run(Init(), events), g)
    decreases |events|
  {
    if events != [] {
      RunUnique(events[..|events| - 1], g);
      StepUniqueIn(Run(Init(), events[..|events| - 1]), g, events[|events| - 1]);
    }
  }

  lemma CountOne(cs: seq<Channel>, id: string)
    requires Unique(cs)
    ensures Ids(cs)[id] == if Has(cs, id) then 1 else 0
  {
    UniqueIff(cs);
    IdsAt(cs, id);
  }

  lemma {:induction false} IdsAppend(cs: seq<Channel>, c: Channel)
    ensures Ids(cs + [c]) == Ids(cs) + multiset{c.id}
    decreases |cs|
  {
    if cs == [] {
      assert cs + [c] == [c] && [c][1..] == [];
    } else {
      assert (cs + [c])[1..] == cs[1..] + [c];
      IdsAppend(cs[1..], c);
    }
  }

  lemma AppendedIds(cs: seq<Channel>, c: Channel, id: string)
    ensures var r := SortByPosition(cs + [Normalize(c)]);
            Ids(r)[id] == Ids(cs)[id] + if c.id == id then 1 else 0
  {
    IdsAppend(cs, Normalize(c));
    IdsSort(cs + [Normalize(c)]);
  }

  lemma CreateCounts(cs: seq<Channel>, g: string, c: Channel)
    ensures Ids(ListAfter(cs, g, CreateReply(g, c)))[c.id] == Ids(cs)[c.id] + 1
  {
    AppendedIds(cs, c, c.id);
  }

  lemma AddCounts(cs: seq<Channel>, g: string, c: Channel)
    requires !Has(cs, c.id) && g == GuildOf(c)
    ensures Ids(ListAfter(cs, g, AddChannel(c)))[c.id] == Ids(cs)[c.id] + 1
  {
    AddsWhenNew(cs, g, c);
    CreateCounts(cs, g, c);
  }

  lemma AddsWhenNew(cs: seq<Channel>, g: string, c: Channel)
    requires !Has(cs, c.id) && g == GuildOf(c)
    ensures ListAfter(cs, g, AddChannel(c)) == ListAfter(cs, g, CreateReply(g, c))
  {
  }

  lemma CreateThenAdd(cs: seq<Channel>, g: string, c: Channel)
    requires g == GuildOf(c)
    ensures Ids(ListAfter(ListAfter(cs, g, CreateReply(g, c)), g, AddChannel(c)))[c.id] == Ids(cs)[c.id] + 1
  {
    var once := ListAfter(cs, g, CreateReply(g, c));
    CreateCounts(cs, g, c);
    IdsAt(once, c.id);
    KnownIsKept(once, g, c);
  }

  lemma KnownIsKept(cs: seq<Channel>, g: string, c: Channel)
    requires Has(cs, c.id)
    ensures ListAfter(cs, g, AddChannel(c)) == cs
  {
  }

  /** The reply to a creation does not look for the channel: when the gateway's event comes first the guild lists it
      twice, when it comes second once. */
  lemma CreatedTwice(s: State, g: string, c: Channel)
    requires Unique(Of(s.byGuild, g)) && !Has(Of(s.byGuild, g), c.id) && g == GuildOf(c)
    ensures Ids(Of(Step(Step(s, AddChannel(c)), CreateReply(g, c)).byGuild, g))[c.id] == 2
    ensures Ids(Of(Step(Step(s, CreateReply(g, c)), AddChannel(c)).byGuild, g))[c.id] == 1
  {
    StepRefines(s, g, AddChannel(c));
    StepRefines(Step(s, AddChannel(c)), g, CreateReply(g, c));
    StepRefines(s, g, CreateReply(g, c));
    StepRefines(Step(s, CreateReply(g, c)), g, AddChannel(c));
    CountOne(Of(s.byGuild, g), c.id);
    AddCounts(Of(s.byGuild, g), g, c);
    CreateCounts(ListAfter(Of(s.byGuild, g), g, AddChannel(c)), g, c);
    CreateThenAdd(Of(s.byGuild, g), g, c);
  }

  // ---- Lists stay sorted by position ----

  /** The channel's new position still lies between the channels before and after it. */
  ghost predicate FitsBetween(cs: seq<Channel>, id: string, position: int) {
    forall i, j :: 0 <= i < |cs| && 0 <= j < |cs| && cs[i].id == id && cs[j].id != id ==>
      if j < i then cs[j].position <= position else position <= cs[j].position
  }

  ghost predicate KeepsOrder(cs: seq<Channel>, g: string, e: Event) {
    match e
    case SetDmChannels(list) => g == "" ==> Sorted(list)
    case UpdateReply(id, c) => g == GuildOf(c) ==> FitsBetween(cs, id, c.position)
    case _ => true
  }

  lemma MapSortedIff(cs: seq<Channel>, id: string, c: Channel)
    requires Sorted(cs)
    ensures Sorted(MapId(cs, IdOf, id, _ => c)) <==> FitsBetween(cs, id, c.position)
  {
    var r := MapId(cs, IdOf, id, _ => c);
    if Sorted(r) {
      forall i, j | 0 <= i < |cs| && 0 <= j < |cs| && cs[i].id == id && cs[j].id != id
        ensures if j < i then cs[j].position <= c.position else c.position <= cs[j].position
      {
        assert r[i] == c && r[j] == cs[j];
      }
    }
  }

  /** Every reducer keeps a sorted list sorted, except the reply to an update that moves a channel past a neighbour, and
      the direct-message list, which is taken as it comes. */
  lemma StepSortedIff(cs: seq<Channel>, g: string, e: Event)
    requires Sorted(cs) && (e.ReorderFailed? ==> Sorted(e.prev))
    ensures Sorted(ListAfter(cs, g, e)) <==> KeepsOrder(cs, g, e)
  {
    match e
    case SetDmChannels(list) => SamePositionsSorted(list, NormalizeAll(list));
    case UpdateReply(id, c) => MapSortedIff(cs, id, Normalize(c));
    case DeleteReply(id) => WithoutKeeps(cs, id);
    case RemoveChannel(_, id) => WithoutKeeps(cs, id);
    case LastMessage(id, message) => SamePositionsSorted(cs, MapId(cs, IdOf, id, (c: Channel) => Stamped(c, message)));
    case _ =>
  }

  lemma SamePositionsSorted(a: seq<Channel>, b: seq<Channel>)
    requires |a| == |b| && forall i :: 0 <= i < |a| ==> a[i].position == b[i].position
    ensures Sorted(a) <==> Sorted(b)
  {
    if Sorted(b) {
      forall i, j | 0 <= i < j < |a| ensures a[i].position <= a[j].position {
        assert b[i].position <= b[j].position;
      }
    }
  }

  ghost predicate SortedIn(s: State, g: string) {
    Sorted(Of(s.byGuild, g)) && forall p :: p in s.pending && p.guild == g ==> Sorted(p.prev)
  }

  lemma StepSortedIn(s: State, g: string, e: Event)
    requires SortedIn(s, g) && KeepsOrder(Of(s.byGuild, g), g, e)
    ensures SortedIn(Step(s, e), g)
  {
    if Enabled(s, e) {
      StepRefines(s, g, e);
      if e.ReorderFailed? && e.guild != g {
        assert ListAfter(Of(s.byGuild, g), g, e) == Of(s.byGuild, g);
      } else {
        StepSortedIff(Of(s.byGuild, g), g, e);
      }
      PendingFrom(s, e);
    }
  }

  /** In every run without update replies the list of every guild is sorted by position. */
  lemma {:induction false} RunSorted(events: seq<Event>, g: string)
    requires forall i :: 0 <= i < |events| ==> !events[i].UpdateReply? && (events[i].SetDmChannels? ==> g != "")
    ensures SortedIn(Run(Init(), events), g)
    decreases |events|
  {
    if events != [] {
      RunSorted(events[..|events| - 1], g);
      StepSortedIn(Run(Init(), events[..|events| - 1]), g, events[|events| - 1]);
    }
  }

  // ---- Reordering ----

  lemma {:induction false} SameIds(a: seq<Channel>, b: seq<Channel>)
    requires |a| == |b| && forall i :: 0 <= i < |a| ==> a[i].id == b[i].id
    ensures Ids(a) == Ids(b)
    decreases |a|
  {
    if a != [] {
      SameIds(a[1..], b[1..]);
    }
  }

  /** A reorder moves channels and loses none. */
  lemma ReorderKeepsIds(cs: seq<Channel>, g: string, positions: seq<Patch>)
    ensures Ids(ListAfter(cs, g, Reorder(g, positions))) == Ids(cs)
  {
    IdsSort(PatchAll(cs, positions));
    SameIds(cs, PatchAll(cs, positions));
  }

  /** A reorder that fails with nothing in between leaves every list, and what is shown, as they were. */
  lemma FailedReorderRestores(s: State, g: string, positions: seq<Patch>, h: string)
    requires Agrees(s)
    ensures var after := Step(Step(s, Reorder(g, positions)), ReorderFailed(g, Of(s.byGuild, g)));
            && Of(after.byGuild, h) == Of(s.byGuild, h) && after.pending == s.pending
            && after.selected == s.selected && (Selected(s) ==> after.channels == s.channels)
  {
    var list, prev := SortByPosition(PatchAll(Of(s.byGuild, g), positions)), Of(s.byGuild, g);
    var mid := Step(s, Reorder(g, positions));
    assert mid == Put(s, g, list).(pending := s.pending + multiset{Pending(g, prev)});
    Restored(s, mid, g, list, prev, h);
  }

  lemma Restored(s: State, mid: State, g: string, list: seq<Channel>, prev: seq<Channel>, h: string)
    requires Agrees(s) && prev == Of(s.byGuild, g)
    requires mid == Put(s, g, list).(pending := s.pending + multiset{Pending(g, prev)})
    ensures var after := Step(mid, ReorderFailed(g, prev));
            && Of(after.byGuild, h) == Of(s.byGuild, h) && after.pending == s.pending
            && after.selected == s.selected && (Selected(s) ==> after.channels == s.channels)
  {
    assert s.pending + multiset{Pending(g, prev)} - multiset{Pending(g, prev)} == s.pending;
  }

  // ---- Which channels are shown ----

  /** What the event says about a channel of the guild: listed, not listed, or nothing. */
  function SaysOf(e: Event, g: string, id: string): Option<bool> {
    match e
    case Fetched(h, data) => if g == h then Some(Has(data, id)) else None
    case SetDmChannels(list) => if g == "" then Some(Has(list, id)) else None
    case CreateReply(h, c) => if g == h && c.id == id then Some(true) else None
    case AddChannel(c) => if g == GuildOf(c) && c.id == id then Some(true) else None
    case DeleteReply(gone) => if gone == id then Some(false) else None
    case RemoveChannel(h, gone) => if g == h && gone == id then Some(false) else None
    case ReorderFailed(h, prev) => if g == h then Some(Has(prev, id)) else None
    case _ => None
  }

  function Says(s: State, e: Event, g: string, id: string): Option<bool> {
    if Enabled(s, e) then SaysOf(e, g, id) else None
  }

  function LastSays(s: State, events: seq<Event>, g: string, id: string): Option<bool>
    decreases |events|
  {
    if events == [] then None
    else
      var says := Says(Run(s, events[..|events| - 1]), events[|events| - 1], g, id);
      if says.Some? then says else LastSays(s, events[..|events| - 1], g, id)
  }

  lemma SameIdsHas(a: seq<Channel>, b: seq<Channel>, id: string)
    requires |a| == |b| && forall i :: 0 <= i < |a| ==> a[i].id == b[i].id
    ensures Has(a, id) <==> Has(b, id)
  {
    if Has(a, id) {
      var i :| 0 <= i < |a| && a[i].id == id;
      assert b[i].id == id;
    }
    if Has(b, id) {
      var i :| 0 <= i < |b| && b[i].id == id;
      assert a[i].id == id;
    }
  }

  lemma SortHas(cs: seq<Channel>, id: string)
    ensures Has(SortByPosition(cs), id) <==> Has(cs, id)
  {
    IdsSort(cs);
    IdsAt(cs, id);
    IdsAt(SortByPosition(cs), id);
  }

  lemma AppendHas(cs: seq<Channel>, c: Channel, id: string)
    ensures Has(cs + [c], id) <==> Has(cs, id) || c.id == id
  {
    IdsAppend(cs, c);
    IdsAt(cs, id);
    IdsAt(cs + [c], id);
  }

  lemma WithoutHas(cs: seq<Channel>, gone: string, id: string)
    ensures Has(Without(cs, gone), id) <==> Has(cs, id) && id != gone
  {
    WithoutFrom(cs, gone);
    if Has(cs, id) && id != gone {
      var i :| 0 <= i < |cs| && cs[i].id == id;
      assert cs[i] in Without(cs, gone);
    }
    if Has(Without(cs, gone), id) {
      var i :| 0 <= i < |Without(cs, gone)| && Without(cs, gone)[i].id == id;
      assert Without(cs, gone)[i] in cs;
    }
  }

  lemma FetchedHas(data: seq<Channel>, id: string)
    ensures Has(SortByPosition(NormalizeAll(data)), id) <==> Has(data, id)
  {
    SortHas(NormalizeAll(data), id);
    SameIdsHas(data, NormalizeAll(data), id);
  }

  lemma AddedHas(cs: seq<Channel>, c: Channel, id: string)
    ensures Has(SortByPosition(cs + [Normalize(c)]), id) <==> Has(cs, id) || c.id == id
  {
    SortHas(cs + [Normalize(c)], id);
    AppendHas(cs, Normalize(c), id);
  }

  lemma PatchedHas(cs: seq<Channel>, positions: seq<Patch>, id: string)
    ensures Has(SortByPosition(PatchAll(cs, positions)), id) <==> Has(cs, id)
  {
    SortHas(PatchAll(cs, positions), id);
    SameIdsHas(cs, PatchAll(cs, positions), id);
  }

  lemma UpdatedHas(cs: seq<Channel>, c: Channel, id: string)
    ensures Has(SortByPosition(MapId(cs, IdOf, c.id, _ => Normalize(c))), id) <==> Has(cs, id)
  {
    SortHas(MapId(cs, IdOf, c.id, _ => Normalize(c)), id);
    SameIdsHas(cs, MapId(cs, IdOf, c.id, _ => Normalize(c)), id);
  }

  lemma AddSays(cs: seq<Channel>, g: string, c: Channel, id: string)
    requires g == GuildOf(c)
    ensures Has(ListAfter(cs, g, AddChannel(c)), id) <==> Has(cs, id) || c.id == id
  {
    AddedHas(cs, c, id);
  }

  /** Events that only change channels in place, or another guild. */
  predicate Edits(e: Event) {
    e.UpdateReply? || e.Reorder? || e.UpdateChannel? || e.LastMessage? || e.SelectGuild? || e.SetChannels?
    || e.ReorderDone?
  }

  lemma EditSays(cs: seq<Channel>, g: string, e: Event, id: string)
    requires Edits(e) && (e.UpdateReply? ==> e.channel.id == e.id)
    ensures Has(ListAfter(cs, g, e), id) <==> Has(cs, id)
  {
    match e
    case UpdateReply(edited, c) => SameIdsHas(cs, MapId(cs, IdOf, edited, _ => Normalize(c)), id);
    case Reorder(_, positions) => PatchedHas(cs, positions, id);
    case UpdateChannel(c) => UpdatedHas(cs, c, id);
    case LastMessage(on, message) => SameIdsHas(cs, MapId(cs, IdOf, on, (c: Channel) => Stamped(c, message)), id);
    case _ =>
  }

  predicate Told(cs: seq<Channel>, g: string, e: Event, id: string) {
    Has(ListAfter(cs, g, e), id) <==> if SaysOf(e, g, id).Some? then SaysOf(e, g, id).value else Has(cs, id)
  }

  lemma FetchTold(cs: seq<Channel>, g: string, h: string, data: seq<Channel>, id: string)
    ensures Told(cs, g, Fetched(h, data), id)
  {
    FetchedHas(data, id);
  }

  lemma CreateTold(cs: seq<Channel>, g: string, h: string, c: Channel, id: string)
    ensures Told(cs, g, CreateReply(h, c), id)
  {
    AddedHas(cs, c, id);
  }

  lemma AddTold(cs: seq<Channel>, g: string, c: Channel, id: string)
    ensures Told(cs, g, AddChannel(c), id)
  {
    if g == GuildOf(c) { AddSays(cs, g, c, id); }
  }

  lemma GoneTold(cs: seq<Channel>, g: string, h: string, gone: string, id: string)
    ensures Told(cs, g, DeleteReply(gone), id) && Told(cs, g, RemoveChannel(h, gone), id)
  {
    WithoutHas(cs, gone, id);
  }

  lemma DmsTold(cs: seq<Channel>, g: string, list: seq<Channel>, id: string)
    ensures Told(cs, g, SetDmChannels(list), id)
  {
    SameIdsHas(list, NormalizeAll(list), id);
  }

  lemma ListTold(cs: seq<Channel>, g: string, e: Event, id: string)
    requires e.UpdateReply? ==> e.channel.id == e.id
    ensures Told(cs, g, e, id)
  {
    if Edits(e) {
      EditSays(cs, g, e, id);
    } else {
      match e
      case Fetched(h, data) => FetchTold(cs, g, h, data, id);
      case SetDmChannels(list) => DmsTold(cs, g, list, id);
      case CreateReply(h, c) => CreateTold(cs, g, h, c, id);
      case DeleteReply(gone) => GoneTold(cs, g, g, gone, id);
      case AddChannel(c) => AddTold(cs, g, c, id);
      case RemoveChannel(h, gone) => GoneTold(cs, g, h, gone, id);
      case ReorderFailed(_, _) =>
    }
  }

  /** After any run a guild lists a channel iff the last event that says anything about it says so; a reorder, an
      update and a new message say nothing, and a failed reorder speaks for every channel of the guild. */
  lemma {:induction false} ListedIff(s: State, events: seq<Event>, g: string, id: string)
    requires forall i :: 0 <= i < |events| && events[i].UpdateReply? ==> events[i].channel.id == events[i].id
    ensures Has(Of(Run(s, events).byGuild, g), id)
            <==> if LastSays(s, events, g, id).Some? then LastSays(s, events, g, id).value
                 else Has(Of(s.byGuild, g), id)
    decreases |events|
  {
    if events != [] {
      var before, e := Run(s, events[..|events| - 1]), events[|events| - 1];
      ListedIff(s, events[..|events| - 1], g, id);
      if Enabled(before, e) {
        StepRefines(before, g, e);
        ListTold(Of(before.byGuild, g), g, e, id);
      }
    }
  }

  /** Whether the guild lists the channel. */
  predicate Listed(s: State, g: string, id: string) { Has(Of(s.byGuild, g), id) }

  lemma ListedAround(s: State, g: string, positions: seq<Patch>, events: seq<Event>, id: string)
    requires forall i :: 0 <= i < |events| && events[i].UpdateReply? ==> events[i].channel.id == events[i].id
    ensures var start := Step(s, Reorder(g, positions));
            var says := LastSays(start, events, g, id);
            Listed(Run(start, events), g, id) <==> if says.Some? then says.value else Listed(s, g, id)
  {
    StepRefines(s, g, Reorder(g, positions));
    PatchedHas(Of(s.byGuild, g), positions, id);
    ListedIff(Step(s, Reorder(g, positions)), events, g, id);
  }

  lemma ListedAfterFailure(last: State, g: string, prev: seq<Channel>, id: string)
    requires Pending(g, prev) in last.pending
    ensures Listed(Step(last, ReorderFailed(g, prev)), g, id) <==> Has(prev, id)
  {
    StepRefines(last, g, ReorderFailed(g, prev));
  }

  /** A reorder that fails brings a channel back iff the guild listed it when the reorder began and the last thing
      said of it since is that it is gone; it drops a channel iff it was not listed then and has been added since. */
  lemma FailedReorderRevivesIff(s: State, g: string, positions: seq<Patch>, events: seq<Event>, id: string)
    requires Pending(g, Of(s.byGuild, g)) in Run(Step(s, Reorder(g, positions)), events).pending
    requires forall i :: 0 <= i < |events| && events[i].UpdateReply? ==> events[i].channel.id == events[i].id
    ensures var start := Step(s, Reorder(g, positions));
            var last := Run(start, events);
            var after := Step(last, ReorderFailed(g, Of(s.byGuild, g)));
            var says := LastSays(start, events, g, id);
            && (Listed(after, g, id) && !Listed(last, g, id) <==> Listed(s, g, id) && says == Some(false))
            && (!Listed(after, g, id) && Listed(last, g, id) <==> !Listed(s, g, id) && says == Some(true))
  {
    ListedAround(s, g, positions, events, id);
    ListedAfterFailure(Run(Step(s, Reorder(g, positions)), events), g, Of(s.byGuild, g), id);
  }
}
