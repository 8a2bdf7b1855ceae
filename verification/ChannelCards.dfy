/**
 The channel store against a plain table of channels: besides their order, a guild's list holds nothing but one channel
 per id, and this is what every event makes of that channel, field by field; and where an event puts a channel among
 others at its position.
 */
module ChannelCards {
  import opened Options
  import opened Lists
  import opened Channels
  import opened ChannelStore

  /** The channel that a list holds under an id. */
  function Card(cs: seq<Channel>, id: string): (r: Option<Channel>)
    ensures r.Some? ==> r.value in cs && r.value.id == id
    ensures r.None? <==> !Has(cs, id)
  {
    if cs == [] then None
    else if cs[0].id == id then Some(cs[0])
    else
      var r := Card(cs[1..], id);
      assert forall i :: 1 <= i < |cs| ==> cs[i] == cs[1..][i - 1];
      r
  }

  /** A channel as the store keeps it: each of the two kinds stands in for the other, and 0 for both. */
  function Stored(c: Channel): Channel {
    Channel(c.id, c.guild,
            Some(match c.kind case Some(k) => k case None => (match c.channelType case Some(t) => t case None => 0)),
            Some(match c.channelType case Some(t) => t case None => (match c.kind case Some(k) => k case None => 0)),
            c.position, c.parent, c.name, c.lastMessage)
  }

  function StoredCard(card: Option<Channel>): Option<Channel> {
    match card case Some(c) => Some(Stored(c)) case None => None
  }

  /** The guild of a channel, and "" for direct messages. */
  function Home(c: Channel): string { match c.guild case Some(g) => g case None => "" }

  /** What the last patch for the channel makes of it. */
  function Moved(c: Channel, positions: seq<Patch>): Channel {
    match PatchFor(positions, c.id)
    case None => c
    case Some(p) =>
      Channel(c.id, c.guild, c.kind, c.channelType, p.position,
              match p.parent case Some(parent) => parent case None => c.parent, c.name, c.lastMessage)
  }

  /** What the event makes of the channel under an id in guild g, in a table of channels. */
  function CardAfter(cards: string -> Option<Channel>, g: string, e: Event, id: string): Option<Channel> {
    var card := cards(id);
    match e
    case Fetched(h, data) => if g == h then StoredCard(Card(data, id)) else card
    case SetDmChannels(list) => if g == "" then StoredCard(Card(list, id)) else card
    case CreateReply(h, c) => if g == h && id == c.id then Some(Stored(c)) else card
    case UpdateReply(on, c) =>
      if g != Home(c) || cards(on).None? then card
      else if id == c.id then Some(Stored(c)) else if id == on then None else card
    case DeleteReply(gone) => if id == gone then None else card
    case Reorder(h, positions) => if g == h && card.Some? then Some(Moved(card.value, positions)) else card
    case ReorderFailed(h, prev) => if g == h then Card(prev, id) else card
    case AddChannel(c) => if g == Home(c) && id == c.id && card.None? then Some(Stored(c)) else card
    case UpdateChannel(c) => if g == Home(c) && id == c.id && card.Some? then Some(Stored(c)) else card
    case RemoveChannel(h, gone) => if g == h && id == gone then None else card
    case LastMessage(on, message) =>
      if id == on && card.Some?
      then var c := card.value;
           Some(Channel(c.id, c.guild, c.kind, c.channelType, c.position, c.parent, c.name, Some(message)))
      else card
    case _ => card
  }

  /** Of several patches for a channel the last counts. */
  lemma {:induction false} PatchForIff(positions: seq<Patch>, id: string, p: Patch)
    ensures PatchFor(positions, id) == Some(p) <==>
            exists k :: 0 <= k < |positions| && positions[k] == p && p.id == id && NoneAfter(positions, k, id)
    decreases |positions|
  {
    if positions != [] {
      var init, last := positions[..|positions| - 1], positions[|positions| - 1];
      PatchForIff(init, id, p);
      if last.id == id {
        assert NoneAfter(positions, |positions| - 1, id);
      } else {
        forall k | 0 <= k < |init| ensures NoneAfter(positions, k, id) <==> NoneAfter(init, k, id) {
          if NoneAfter(positions, k, id) {
            forall j | k < j < |init| ensures init[j].id != id { assert positions[j].id != id; }
          }
        }
      }
    }
  }

  ghost predicate NoneAfter(positions: seq<Patch>, k: int, id: string) {
    forall j :: k < j < |positions| && 0 <= j ==> positions[j].id != id
  }

  // ---- One event ----

  lemma {:induction false} CardAt(cs: seq<Channel>, i: nat)
    requires Unique(cs) && i < |cs|
    ensures Card(cs, cs[i].id) == Some(cs[i])
    decreases i
  {
    if i > 0 {
      assert cs[0].id != cs[i].id;
      assert Unique(cs[1..]) && cs[1..][i - 1] == cs[i];
      CardAt(cs[1..], i - 1);
    }
  }

  lemma CardIs(cs: seq<Channel>, c: Channel)
    requires Unique(cs) && c in cs
    ensures Card(cs, c.id) == Some(c)
  {
    var i :| 0 <= i < |cs| && cs[i] == c;
    CardAt(cs, i);
  }

  lemma SortedCard(cs: seq<Channel>, id: string)
    requires Unique(cs)
    ensures Card(SortByPosition(cs), id) == Card(cs, id)
  {
    var r := SortByPosition(cs);
    SortUnique(cs);
    SortHas(cs, id);
    if Card(cs, id).Some? {
      var c := Card(cs, id).value;
      assert c in multiset(r);
      CardIs(r, c);
    }
  }

  /** A change of every channel that leaves its id alone. */
  lemma {:induction false} EachCard(a: seq<Channel>, b: seq<Channel>, f: Channel -> Channel, id: string)
    requires |a| == |b| && forall i :: 0 <= i < |a| ==> b[i] == f(a[i]) && b[i].id == a[i].id
    ensures Card(b, id) == match Card(a, id) case Some(c) => Some(f(c)) case None => None
    decreases |a|
  {
    if a != [] && a[0].id != id {
      EachCard(a[1..], b[1..], f, id);
    }
  }

  lemma {:induction false} AppendCard(cs: seq<Channel>, c: Channel, id: string)
    ensures Card(cs + [c], id) == if Has(cs, id) then Card(cs, id) else if c.id == id then Some(c) else None
    decreases |cs|
  {
    if cs == [] {
      assert cs + [c] == [c] && [c][1..] == [];
    } else {
      assert (cs + [c])[1..] == cs[1..] + [c];
      AppendCard(cs[1..], c, id);
      assert Has(cs, id) <==> Card(cs, id).Some?;
      assert Has(cs[1..], id) <==> Card(cs[1..], id).Some?;
    }
  }

  lemma FirstCard(c: Channel, cs: seq<Channel>, id: string)
    ensures Card([c] + cs, id) == if c.id == id then Some(c) else Card(cs, id)
  {
    assert ([c] + cs)[1..] == cs;
  }

  lemma {:induction false} WithoutCard(cs: seq<Channel>, gone: string, id: string)
    ensures Card(Without(cs, gone), id) == if id == gone then None else Card(cs, id)
    decreases |cs|
  {
    if cs != [] {
      WithoutCard(cs[1..], gone, id);
      FirstCard(cs[0], Without(cs[1..], gone), id);
      assert [] + Without(cs[1..], gone) == Without(cs[1..], gone);
    }
  }

  lemma StoredIs(c: Channel)
    ensures Normalize(c) == Stored(c) && GuildOf(c) == Home(c)
  {
  }

  lemma StoredCards(data: seq<Channel>, id: string)
    ensures Card(NormalizeAll(data), id) == StoredCard(Card(data, id))
  {
    forall i | 0 <= i < |data| ensures NormalizeAll(data)[i] == Stored(data[i]) { StoredIs(data[i]); }
    EachCard(data, NormalizeAll(data), Stored, id);
  }

  lemma FetchedCard(data: seq<Channel>, id: string)
    requires Unique(data)
    ensures Card(SortByPosition(NormalizeAll(data)), id) == StoredCard(Card(data, id))
  {
    SameIdsUnique(data, NormalizeAll(data));
    SortedCard(NormalizeAll(data), id);
    StoredCards(data, id);
  }

  lemma AddedCard(cs: seq<Channel>, c: Channel, id: string)
    requires Unique(cs) && !Has(cs, c.id)
    ensures Card(SortByPosition(cs + [Normalize(c)]), id) == if id == c.id then Some(Stored(c)) else Card(cs, id)
  {
    StoredIs(c);
    AppendUnique(cs, Normalize(c));
    SortedCard(cs + [Normalize(c)], id);
    AppendCard(cs, Normalize(c), id);
  }

  lemma PatchedCard(cs: seq<Channel>, positions: seq<Patch>, id: string)
    requires Unique(cs)
    ensures Card(SortByPosition(PatchAll(cs, positions)), id)
            == match Card(cs, id) case Some(c) => Some(Moved(c, positions)) case None => None
  {
    SameIdsUnique(cs, PatchAll(cs, positions));
    SortedCard(PatchAll(cs, positions), id);
    EachCard(cs, PatchAll(cs, positions), c => Moved(c, positions), id);
  }

  /** A new version takes the place of a channel, under its own id. */
  lemma ReplacedCard(cs: seq<Channel>, on: string, c: Channel, id: string)
    requires Unique(cs) && Unique(MapId(cs, IdOf, on, _ => c))
    ensures Card(MapId(cs, IdOf, on, _ => c), id)
            == if Card(cs, on).None? then Card(cs, id)
               else if id == c.id then Some(c) else if id == on then None else Card(cs, id)
  {
    var after := MapId(cs, IdOf, on, _ => c);
    if Card(cs, on).None? {
      assert after == cs;
    } else {
      var i :| 0 <= i < |cs| && cs[i] == Card(cs, on).value;
      CardAt(after, i);
      if id != c.id && id != on {
        if Card(cs, id).Some? {
          var k :| 0 <= k < |cs| && cs[k] == Card(cs, id).value;
          CardAt(after, k);
        } else {
          assert !Has(after, id);
        }
      }
    }
  }

  lemma UpdatedCard(cs: seq<Channel>, c: Channel, id: string)
    requires Unique(cs)
    ensures Card(SortByPosition(MapId(cs, IdOf, c.id, _ => Normalize(c))), id)
            == if id == c.id && Card(cs, id).Some? then Some(Stored(c)) else Card(cs, id)
  {
    StoredIs(c);
    RenameUnique(cs, c.id, Normalize(c));
    SortedCard(MapId(cs, IdOf, c.id, _ => Normalize(c)), id);
    ReplacedCard(cs, c.id, Normalize(c), id);
  }

  lemma StampedCard(cs: seq<Channel>, on: string, message: string, id: string)
    ensures var f := (c: Channel) => Stamped(c, message);
            Card(MapId(cs, IdOf, on, f), id)
            == match Card(cs, id) case Some(c) => Some(if id == on then f(c) else c) case None => None
  {
    var f := (c: Channel) => Stamped(c, message);
    EachCard(cs, MapId(cs, IdOf, on, f), (c: Channel) => if c.id == on then f(c) else c, id);
  }

  ghost predicate Refines(cs: seq<Channel>, g: string, e: Event, id: string) {
    Card(ListAfter(cs, g, e), id) == CardAfter(x => Card(cs, x), g, e, id)
  }

  lemma ReplyRefines(cs: seq<Channel>, g: string, on: string, c: Channel, id: string)
    requires Unique(cs) && Fits(cs, g, UpdateReply(on, c))
    ensures Refines(cs, g, UpdateReply(on, c), id)
  {
    StoredIs(c);
    if g == GuildOf(c) {
      RenameUnique(cs, on, Normalize(c));
      ReplacedCard(cs, on, Normalize(c), id);
    }
  }

  /** Every event that keeps ids unique makes of every channel of a guild what the table says. */
  lemma CardRefines(cs: seq<Channel>, g: string, e: Event, id: string)
    requires Unique(cs) && Fits(cs, g, e)
    ensures Refines(cs, g, e, id)
  {
    match e
    case Fetched(h, data) => if g == h { FetchedCard(data, id); }
    case SetDmChannels(list) => StoredCards(list, id);
    case CreateReply(h, c) => if g == h { AddedCard(cs, c, id); }
    case UpdateReply(on, c) => ReplyRefines(cs, g, on, c, id);
    case DeleteReply(gone) => WithoutCard(cs, gone, id);
    case Reorder(h, positions) => PatchedCard(cs, positions, id);
    case AddChannel(c) =>
      StoredIs(c);
      if !Has(cs, c.id) { AddedCard(cs, c, id); }
    case UpdateChannel(c) =>
      StoredIs(c);
      UpdatedCard(cs, c, id);
    case RemoveChannel(_, gone) => WithoutCard(cs, gone, id);
    case LastMessage(on, message) => StampedCard(cs, on, message, id);
    case _ =>
  }

  // ---- Runs ----

  /** The channel under an id of guild g after a run, from the events alone. */
  function CardSaid(events: seq<Event>, g: string, id: string): Option<Channel>
    decreases |events|
  {
    if events == [] then None
    else
      var init, e := events[..|events| - 1], events[|events| - 1];
      if Enabled(Run(Init(), init), e) then CardAfter(x => CardSaid(init, g, x), g, e, id) else CardSaid(init, g, id)
  }

  lemma SameCards(a: string -> Option<Channel>, b: string -> Option<Channel>, g: string, e: Event, id: string)
    requires forall x :: a(x) == b(x)
    ensures CardAfter(a, g, e, id) == CardAfter(b, g, e, id)
  {
  }

  /** Through any run of fitting events every guild holds under every id the channel that the table holds. */
  lemma {:induction false} CardsThroughRun(events: seq<Event>, g: string, id: string)
    requires AllFit(events, g)
    ensures Card(Of(Run(Init(), events).byGuild, g), id) == CardSaid(events, g, id)
    decreases |events|
  {
    if events != [] {
      var init, e := events[..|events| - 1], events[|events| - 1];
      var before := Run(Init(), init);
      RunUnique(init, g);
      forall x ensures Card(Of(before.byGuild, g), x) == CardSaid(init, g, x) { CardsThroughRun(init, g, x); }
      if Enabled(before, e) {
        StepRefines(before, g, e);
        CardRefines(Of(before.byGuild, g), g, e, id);
        SameCards(x => Card(Of(before.byGuild, g), x), x => CardSaid(init, g, x), g, e, id);
      }
    }
  }

  // ---- Order ----

  function StoredAll(data: seq<Channel>): (r: seq<Channel>)
    ensures |r| == |data| && forall i :: 0 <= i < |data| ==> r[i] == Stored(data[i])
  {
    seq(|data|, i requires 0 <= i < |data| => Stored(data[i]))
  }

  lemma {:induction false} AtAppend(cs: seq<Channel>, c: Channel, p: int)
    ensures AtPosition(cs + [c], p) == AtPosition(cs, p) + if c.position == p then [c] else []
    decreases |cs|
  {
    if cs == [] {
      AtFirst(c, [], p);
      assert cs + [c] == [c] + [];
    } else {
      AtAppend(cs[1..], c, p);
      AtFirst(cs[0], cs[1..] + [c], p);
      AtFirst(cs[0], cs[1..], p);
      assert cs == [cs[0]] + cs[1..];
      assert cs + [c] == [cs[0]] + (cs[1..] + [c]);
    }
  }

  /** A channel that is added comes after those at its position, and moves none. */
  lemma AddedLast(cs: seq<Channel>, g: string, c: Channel, p: int)
    ensures AtPosition(ListAfter(cs, g, CreateReply(g, c)), p)
            == AtPosition(cs, p) + if c.position == p then [Stored(c)] else []
    ensures g == Home(c) && !Has(cs, c.id) ==> ListAfter(cs, g, AddChannel(c)) == ListAfter(cs, g, CreateReply(g, c))
  {
    StoredIs(c);
    Stable(cs + [Normalize(c)], p);
    AtAppend(cs, Normalize(c), p);
  }

  lemma StoredAllIs(data: seq<Channel>)
    ensures NormalizeAll(data) == StoredAll(data)
  {
    forall i | 0 <= i < |data| ensures NormalizeAll(data)[i] == StoredAll(data)[i] { StoredIs(data[i]); }
  }

  /** The channels of a fetched list keep its order at every position. */
  lemma FetchedOrder(cs: seq<Channel>, g: string, data: seq<Channel>, p: int)
    ensures AtPosition(ListAfter(cs, g, Fetched(g, data)), p) == AtPosition(StoredAll(data), p)
  {
    StoredAllIs(data);
    Stable(NormalizeAll(data), p);
  }

  /** A reorder keeps the order of those that it leaves at one position or brings to it. */
  lemma ReorderedOrder(cs: seq<Channel>, g: string, positions: seq<Patch>, p: int)
    ensures AtPosition(ListAfter(cs, g, Reorder(g, positions)), p) == AtPosition(PatchAll(cs, positions), p)
  {
    Stable(PatchAll(cs, positions), p);
  }

  // ---- What is shown while no guild is selected ----

  /** The flat list of the last word on it. */
  function FlatAfter(flat: seq<Channel>, e: Event): seq<Channel> {
    match e
    case SelectGuild(_) => []
    case SetChannels(list) => list
    case SetDmChannels(list) => StoredAll(list)
    case DeleteReply(gone) => Without(flat, gone)
    case _ => flat
  }

  lemma FlatPut(s: State, e: Event)
    requires s.selected.None? && Enabled(s, e) && NewList(s, e).Some?
    ensures Step(s, e).selected.None? && Step(s, e).channels == s.channels
  {
  }

  lemma FlatOther(s: State, e: Event)
    requires s.selected.None? && Enabled(s, e) && NewList(s, e).None? && (e.SelectGuild? ==> e.choice.None?)
    ensures Step(s, e).selected.None? && Step(s, e).channels == FlatAfter(s.channels, e)
  {
    match e
    case SetDmChannels(list) => StoredAllIs(list);
    case _ =>
  }

  /** While no guild is selected the flat list is what was set last, less what was deleted since; gateway events and
      fetches do not touch it. */
  lemma FlatUnselected(s: State, e: Event)
    requires s.selected.None? && Enabled(s, e) && (e.SelectGuild? ==> e.choice.None?)
    ensures Step(s, e).selected.None? && Step(s, e).channels == FlatAfter(s.channels, e)
  {
    if NewList(s, e).Some? { FlatPut(s, e); } else { FlatOther(s, e); }
  }
}
