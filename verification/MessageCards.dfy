/**
 The message store against a plain table of messages: besides the order of ids, a channel's list holds nothing but one
 message per id, and this is what every event makes of that message, field by field.
 */
module MessageCards {
  import opened Options
  import opened Lists
  import Reactions
  import opened MessageStore

  /** The message that is shown under an id. */
  function Card(ms: seq<Message>, id: string): (r: Option<Message>)
    ensures r.Some? ==> r.value in ms && r.value.id == id
    ensures r.None? <==> !Has(ms, id)
  {
    if ms == [] then None
    else if ms[0].id == id then Some(ms[0])
    else
      var r := Card(ms[1..], id);
      assert forall i :: 1 <= i < |ms| ==> ms[i] == ms[1..][i - 1];
      r
  }

  /** A message that arrives: until it has been decrypted, its content is empty. */
  function Arrived(m: Message): Message {
    Message(m.id, if m.e2ee.Some? then Some("") else m.content, m.e2ee, m.pinned, m.reactions)
  }

  function WithReactions(card: Message, rs: seq<Reactions.Reaction>): Message {
    Message(card.id, card.content, card.e2ee, card.pinned, Some(rs))
  }

  function WithPin(card: Message, pinned: bool): Message {
    Message(card.id, card.content, card.e2ee, pinned, card.reactions)
  }

  function Given(card: Message): seq<Reactions.Reaction> {
    match card.reactions case Some(rs) => rs case None => []
  }

  /** What the event makes of the message under an id, in a table of messages. */
  function CardAfter(cards: string -> Option<Message>, e: Event, id: string): Option<Message> {
    var card := cards(id);
    match e
    case SendReply(_, m) => if id == m.id && card.None? then Some(m) else card
    case Create(_, m) => if id == m.id && card.None? then Some(Arrived(m)) else card
    case Update(_, m) => if id == m.id && card.Some? then Some(Arrived(m)) else card
    case Decrypted(_, m, text) =>
      if id == m.id && card.Some? then Some(Message(m.id, Some(text), m.e2ee, m.pinned, m.reactions)) else card
    case EditReply(_, edited, m) =>
      if cards(edited).None? then card else if id == m.id then Some(m) else if id == edited then None else card
    case Delete(_, gone) => if id == gone then None else card
    case BulkDelete(_, gone) => if id in gone then None else card
    case Page(_, page, older) => if Has(page, id) then Card(page, id) else if older then card else None
    case SetAll(_, all) => Card(all, id)
    case SetPinned(_, on, pinned) => if id == on && card.Some? then Some(WithPin(card.value, pinned)) else card
    case Unpin(_, on) => if id == on && card.Some? then Some(WithPin(card.value, false)) else card
    case PinsPage(_, _) => card
    case Rollback(_, on, snapshot) =>
      if id == on && card.Some? && snapshot.Some? then Some(WithReactions(card.value, snapshot.value)) else card
    case _ => if id == e.id && card.Some? then Some(WithReactions(card.value, Reacted(card.value, e))) else card
  }

  /** The reactions after a reaction event. */
  function Reacted(card: Message, e: Event): seq<Reactions.Reaction> {
    match e
    case ReactionAdd(_, _, emoji, user, me) => Reactions.GatewayAdd(Given(card), emoji, user == me)
    case ReactionRemove(_, _, emoji, user, me) => Reactions.GatewayRemove(Given(card), emoji, user == me)
    case OwnReactionAdd(_, _, emoji) => Reactions.OwnAdd(Given(card), emoji)
    case OwnReactionRemove(_, _, emoji) => Reactions.OwnRemove(Given(card), emoji)
    case _ => Given(card)
  }

  // ---- One event ----

  lemma DistinctRest(ms: seq<Message>)
    requires ms != [] && Distinct(Ids(ms))
    ensures Ids(ms)[1..] == Ids(ms[1..]) && Distinct(Ids(ms[1..])) && !Has(ms[1..], ms[0].id)
  {
    var ids := Ids(ms);
    assert ids[1..] == Ids(ms[1..]);
    forall i, j | 0 <= i < j < |ms| - 1 ensures ids[1..][i] != ids[1..][j] { assert ids[i + 1] != ids[j + 1]; }
    forall i | 0 <= i < |ms| - 1 ensures ms[1..][i].id != ms[0].id { assert ids[0] != ids[i + 1]; }
  }

  lemma {:induction false} CardAt(ms: seq<Message>, i: nat)
    requires Distinct(Ids(ms)) && i < |ms|
    ensures Card(ms, ms[i].id) == Some(ms[i])
    decreases i
  {
    if i > 0 {
      DistinctRest(ms);
      assert ms[1..][i - 1] == ms[i];
      CardAt(ms[1..], i - 1);
    }
  }

  /** A change of the messages with one id. */
  lemma MapCard(ms: seq<Message>, on: string, f: Message -> Message, id: string)
    requires Distinct(Ids(ms)) && forall m :: m in ms && m.id == on ==> f(m).id == on
    ensures Card(MapId(ms, IdOf, on, f), id)
            == if id == on && Card(ms, on).Some? then Some(f(Card(ms, on).value)) else Card(ms, id)
  {
    var after := MapId(ms, IdOf, on, f);
    assert Ids(after) == Ids(ms);
    IdsIn(ms, id);
    IdsIn(after, id);
    if Card(ms, id).Some? {
      var i :| 0 <= i < |ms| && ms[i] == Card(ms, id).value;
      CardAt(after, i);
    }
  }

  lemma {:induction false} CardSplit(a: seq<Message>, b: seq<Message>, id: string)
    ensures Card(a + b, id) == if Has(a, id) then Card(a, id) else Card(b, id)
    decreases |a|
  {
    if a == [] {
      assert a + b == b;
    } else {
      assert (a + b)[1..] == a[1..] + b;
      CardSplit(a[1..], b, id);
      assert Has(a, id) <==> Card(a, id).Some?;
      assert Has(a[1..], id) <==> Card(a[1..], id).Some?;
    }
  }

  lemma InsertCard(ms: seq<Message>, m: Message, id: string)
    ensures Card(Insert(ms, m), id) == if id == m.id && Card(ms, id).None? then Some(m) else Card(ms, id)
  {
    if !Has(ms, m.id) {
      CardSplit(ms, [m], id);
      assert [m][1..] == [];
    }
  }

  lemma {:induction false} KeepCard(ms: seq<Message>, gone: seq<string>, id: string)
    ensures Card(Keep(ms, gone), id) == if id in gone then None else Card(ms, id)
    decreases |ms|
  {
    if ms != [] {
      KeepCard(ms[1..], gone, id);
      var first := if ms[0].id in gone then [] else [ms[0]];
      CardSplit(first, Keep(ms[1..], gone), id);
      assert [ms[0]][1..] == [];
    }
  }

  lemma {:induction false} ReverseCard(ms: seq<Message>, id: string)
    requires Distinct(Ids(ms))
    ensures Card(Reverse(ms), id) == Card(ms, id)
    decreases |ms|
  {
    if ms != [] {
      DistinctRest(ms);
      ReverseCard(ms[1..], id);
      CardSplit(Reverse(ms[1..]), [ms[0]], id);
      assert [ms[0]][1..] == [];
      assert Has(Reverse(ms[1..]), id) <==> Card(ms[1..], id).Some?;
    }
  }

  lemma PageCard(ms: seq<Message>, page: seq<Message>, older: bool, id: string)
    requires Distinct(Ids(page))
    ensures Card(if older then Reverse(page) + ms else Reverse(page), id)
            == if Has(page, id) then Card(page, id) else if older then Card(ms, id) else None
  {
    ReverseCard(page, id);
    assert Has(page, id) <==> Card(page, id).Some?;
    assert Has(Reverse(page), id) <==> Card(Reverse(page), id).Some?;
    CardSplit(Reverse(page), ms, id);
  }

  /** The reply to an edit takes the place of the edited message, under its own id. */
  lemma EditCard(ms: seq<Message>, edited: string, m: Message, id: string)
    requires Distinct(Ids(ms)) && Distinct(Ids(MapId(ms, IdOf, edited, _ => m)))
    ensures Card(MapId(ms, IdOf, edited, _ => m), id)
            == if Card(ms, edited).None? then Card(ms, id)
               else if id == m.id then Some(m) else if id == edited then None else Card(ms, id)
  {
    var after := MapId(ms, IdOf, edited, _ => m);
    if Card(ms, edited).None? {
      assert after == ms;
    } else {
      var i :| 0 <= i < |ms| && ms[i] == Card(ms, edited).value;
      CardAt(after, i);
      if id != m.id && id != edited {
        if Card(ms, id).Some? {
          var k :| 0 <= k < |ms| && ms[k] == Card(ms, id).value;
          CardAt(after, k);
        } else {
          assert !Has(after, id);
        }
      }
    }
  }

  /** Every event that keeps ids unique makes of every message what the table says. */
  lemma CardRefines(ms: seq<Message>, e: Event, id: string)
    requires Distinct(Ids(ms)) && Fits(Ids(ms), e)
    ensures Card(ListAfter(ms, e), id) == CardAfter(x => Card(ms, x), e, id)
  {
    match e
    case SendReply(_, m) => InsertCard(ms, m, id);
    case Create(_, m) => InsertCard(ms, Base(m), id);
    case Update(_, m) => MapCard(ms, m.id, _ => Base(m), id);
    case Decrypted(_, m, text) => MapCard(ms, m.id, _ => m.(content := Some(text)), id);
    case EditReply(_, edited, m) =>
      ListRefines(ms, e);
      StepDistinctIff(Ids(ms), e);
      EditCard(ms, edited, m, id);
    case Delete(_, gone) => KeepCard(ms, [gone], id);
    case BulkDelete(_, gone) => KeepCard(ms, gone, id);
    case Page(_, page, older) => PageCard(ms, page, older, id);
    case _ => OtherCard(ms, e, id);
  }

  lemma OtherCard(ms: seq<Message>, e: Event, id: string)
    requires Distinct(Ids(ms)) && Fits(Ids(ms), e)
    requires e.SetAll? || e.SetPinned? || e.Unpin? || e.PinsPage? || e.ReactionAdd? || e.ReactionRemove?
             || e.OwnReactionAdd? || e.OwnReactionRemove? || e.Rollback?
    ensures Card(ListAfter(ms, e), id) == CardAfter(x => Card(ms, x), e, id)
  {
    match e
    case SetPinned(_, on, pinned) => MapCard(ms, on, (m: Message) => m.(pinned := pinned), id);
    case Unpin(_, on) => MapCard(ms, on, (m: Message) => m.(pinned := false), id);
    case ReactionAdd(_, on, emoji, user, me) =>
      MapCard(ms, on, (m: Message) => m.(reactions := Some(Reactions.GatewayAdd(ReactionsOf(m), emoji, user == me))),
              id);
    case ReactionRemove(_, on, emoji, user, me) =>
      MapCard(ms, on, (m: Message) => m.(reactions := Some(Reactions.GatewayRemove(ReactionsOf(m), emoji, user == me))),
              id);
    case OwnReactionAdd(_, on, emoji) =>
      MapCard(ms, on, (m: Message) => m.(reactions := Some(Reactions.OwnAdd(ReactionsOf(m), emoji))), id);
    case OwnReactionRemove(_, on, emoji) =>
      MapCard(ms, on, (m: Message) => m.(reactions := Some(Reactions.OwnRemove(ReactionsOf(m), emoji))), id);
    case Rollback(_, on, snapshot) =>
      if snapshot.Some? { MapCard(ms, on, (m: Message) => m.(reactions := snapshot), id); }
    case _ =>
  }

  // ---- Runs ----

  /** The message under an id after a run, from what was shown before and the events alone. */
  function CardSaid(s: Store, events: seq<Event>, c: string, id: string): Option<Message>
    decreases |events|
  {
    if events == [] then Card(At(s, c), id)
    else
      var init, e := events[..|events| - 1], events[|events| - 1];
      if e.channel != c || !Enabled(Run(s, init), e) then CardSaid(s, init, c, id)
      else CardAfter(x => CardSaid(s, init, c, x), e, id)
  }

  /** What an event makes of a message depends on two messages at most. */
  lemma SameCards(a: string -> Option<Message>, b: string -> Option<Message>, e: Event, id: string)
    requires forall x :: a(x) == b(x)
    ensures CardAfter(a, e, id) == CardAfter(b, e, id)
  {
  }

  /** Through any run of fitting events every channel shows under every id the message that the table holds. */
  lemma {:induction false} CardsThroughRun(s: Store, events: seq<Event>, c: string, id: string)
    requires Unique(s) && AllFit(s, events)
    ensures Card(At(Run(s, events), c), id) == CardSaid(s, events, c, id)
    decreases |events|
  {
    if events != [] {
      var init, e := events[..|events| - 1], events[|events| - 1];
      var before := Run(s, init);
      RunKeepsUnique(s, init);
      forall x ensures Card(At(before, c), x) == CardSaid(s, init, c, x) { CardsThroughRun(s, init, c, x); }
      if Enabled(before, e) && e.channel == c {
        assert Distinct(Ids(At(before, c)));
        CardRefines(At(before, c), e, id);
        SameCards(x => Card(At(before, c), x), x => CardSaid(s, init, c, x), e, id);
        ListIs(before, e);
      }
    }
  }

  lemma ListIs(s: Store, e: Event)
    requires Enabled(s, e)
    ensures At(Step(s, e), e.channel) == ListAfter(At(s, e.channel), e)
  {
  }

  ghost predicate SameTable(a: seq<Message>, b: seq<Message>) {
    Ids(a) == Ids(b) && forall id :: Card(a, id) == Card(b, id)
  }

  /** Nothing else is in a list: it is its ids, in order, and the message of each. */
  lemma TableIsList(a: seq<Message>, b: seq<Message>)
    requires Distinct(Ids(a)) && Distinct(Ids(b)) && SameTable(a, b)
    ensures a == b
  {
    assert |a| == |Ids(a)| == |b|;
    forall i | 0 <= i < |a| ensures a[i] == b[i] {
      assert Ids(a)[i] == Ids(b)[i];
      CardAt(a, i);
      CardAt(b, i);
    }
  }

  // ---- A message from its arrival on ----

  /** A new message is appended, with empty content while it is encrypted. */
  lemma ArrivalAppends(s: Store, c: string, m: Message)
    requires !Has(At(s, c), m.id)
    ensures At(Step(s, Create(c, m)), c) == At(s, c) + [Arrived(m)]
  {
  }

  /** From its arrival on a message that is left in place shows what its last update, decryption or edit reply wrote,
      and until the first of them what it arrived with. */
  lemma ContentFromArrival(s: Store, events: seq<Event>, c: string, m: Message)
    requires !Has(At(s, c), m.id) && forall i :: 0 <= i < |events| ==> Leaves(events[i], c, m.id)
    ensures var start := Step(s, Create(c, m));
            ShowsBody(At(Run(start, events), c), m.id, LastWrite(start, events, c, m.id, (m, Arrived(m))).1)
  {
    var start := Step(s, Create(c, m));
    ArrivalAppends(s, c, m);
    assert At(start, c)[|At(s, c)|] == Arrived(m);
    ContentThroughRun(start, events, c, m.id, (m, Arrived(m)));
  }

  // ---- Decryptions ----

  /** The event starts a decryption of this message. */
  predicate Starts(e: Event, c: string, m: Message) {
    (e.Create? || e.Update?) && e.channel == c && e.message == m && m.e2ee.Some?
  }

  function Open(s: Store, events: seq<Event>, c: string, m: Message): int
    decreases |events|
  {
    if events == [] then 0
    else
      var init, e := events[..|events| - 1], events[|events| - 1];
      Open(s, init, c, m)
      + (if Starts(e, c, m) then 1 else 0)
      - (if Enabled(Run(s, init), e) && e.Decrypted? && e.channel == c && e.message == m then 1 else 0)
  }

  /** Every arrival and every update of an encrypted message starts one decryption, whether or not the message is shown,
      and each ends once. */
  lemma {:induction false} PendingIs(s: Store, events: seq<Event>, c: string, m: Message)
    ensures Run(s, events).pending[Pending(c, m)] == s.pending[Pending(c, m)] + Open(s, events, c, m)
    decreases |events|
  {
    if events != [] {
      PendingIs(s, events[..|events| - 1], c, m);
    }
  }

  /** What the event says of the mark of an id: an arrival that is shown and an update set it, while encrypted, and the
      end of any decryption of the id clears it. */
  function MarkWord(s: Store, e: Event, id: string): Option<bool> {
    match e
    case Create(c, m) => if m.id == id && m.e2ee.Some? && Card(At(s, c), id).None? then Some(true) else None
    case Update(_, m) => if m.id == id && m.e2ee.Some? then Some(true) else None
    case Decrypted(_, m, _) => if m.id == id && Enabled(s, e) then Some(false) else None
    case _ => None
  }

  predicate MarkSaid(s: Store, events: seq<Event>, id: string)
    decreases |events|
  {
    if events == [] then id in s.decrypting
    else
      var init, e := events[..|events| - 1], events[|events| - 1];
      match MarkWord(Run(s, init), e, id)
      case Some(marked) => marked
      case None => MarkSaid(s, init, id)
  }

  lemma MarkStep(s: Store, e: Event, id: string)
    ensures var word := MarkWord(s, e, id);
            id in Step(s, e).decrypting <==> if word.Some? then word.value else id in s.decrypting
  {
    match e
    case Create(c, m) => assert Has(At(s, c), m.id) <==> Card(At(s, c), m.id).Some?;
    case _ =>
  }

  /** After any run a message is marked as being decrypted iff the last word on its mark says so. */
  lemma {:induction false} MarkIff(s: Store, events: seq<Event>, id: string)
    ensures id in Run(s, events).decrypting <==> MarkSaid(s, events, id)
    decreases |events|
  {
    if events != [] {
      MarkIff(s, events[..|events| - 1], id);
      MarkStep(Run(s, events[..|events| - 1]), events[|events| - 1], id);
    }
  }

  // ---- Pins ----

  function Pinned(s: Store, c: string): seq<Message> {
    if c in s.pins then s.pins[c] else []
  }

  /** What the event says of a message in the list of pins: there, in one version, or not. */
  function PinWord(e: Event, c: string, id: string): Option<Option<Message>> {
    match e
    case PinsPage(d, page) => if d == c then Some(Card(page, id)) else None
    case Unpin(d, on) => if d == c && on == id then Some(None) else None
    case _ => None
  }

  function PinSaid(s: Store, events: seq<Event>, c: string, id: string): Option<Message>
    decreases |events|
  {
    if events == [] then Card(Pinned(s, c), id)
    else
      var init, e := events[..|events| - 1], events[|events| - 1];
      match PinWord(e, c, id)
      case Some(card) => card
      case None => PinSaid(s, init, c, id)
  }

  lemma PinStep(s: Store, e: Event, c: string, id: string)
    ensures var word := PinWord(e, c, id);
            Card(Pinned(Step(s, e), c), id) == if word.Some? then word.value else Card(Pinned(s, c), id)
  {
    if e.Unpin? && e.channel == c { KeepCard(Pinned(s, c), [e.id], id); }
  }

  /** After any run the list of pins shows under every id what the last page of pins, or a later removal, says. */
  lemma {:induction false} PinsThroughRun(s: Store, events: seq<Event>, c: string, id: string)
    ensures Card(Pinned(Run(s, events), c), id) == PinSaid(s, events, c, id)
    decreases |events|
  {
    if events != [] {
      var init, e := events[..|events| - 1], events[|events| - 1];
      PinsThroughRun(s, init, c, id);
      PinStep(Run(s, init), e, c, id);
    }
  }
}
