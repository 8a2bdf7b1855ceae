/** The message list of client/src/stores/messageStore.ts: reducers and the replies that arrive late. */
module MessageStore {
  import opened Options
  import opened Lists
  import opened Reactions

  datatype Message = Message(
    id: string, content: Option<string>, e2ee: Option<string>, pinned: bool, reactions: Option<seq<Reaction>>)

  /** A decryption that was started for a message of a channel and has not come back. */
  datatype Pending = Pending(channel: string, message: Message)

  datatype Store = Store(
    messages: map<string, seq<Message>>, pins: map<string, seq<Message>>, decrypting: set<string>,
    pending: multiset<Pending>)

  function Init(): Store { Store(map[], map[], {}, multiset{}) }

  /** Everything that changes the store, in the order in which it happens. */
  datatype Event =
    | SendReply(channel: string, message: Message)
    | Create(channel: string, message: Message)
    | Update(channel: string, message: Message)
    | Decrypted(channel: string, message: Message, content: string)
    | EditReply(channel: string, id: string, message: Message)
    | Delete(channel: string, id: string)
    | BulkDelete(channel: string, ids: seq<string>)
    | Page(channel: string, page: seq<Message>, older: bool)
    | SetAll(channel: string, all: seq<Message>)
    | SetPinned(channel: string, id: string, pinned: bool)
    | Unpin(channel: string, id: string)
    | PinsPage(channel: string, pinnedMessages: seq<Message>)
    | ReactionAdd(channel: string, id: string, emoji: string, user: string, me: string)
    | ReactionRemove(channel: string, id: string, emoji: string, user: string, me: string)
    | OwnReactionAdd(channel: string, id: string, emoji: string)
    | OwnReactionRemove(channel: string, id: string, emoji: string)
    | Rollback(channel: string, id: string, snapshot: Option<seq<Reaction>>)

  function At(s: Store, channel: string): seq<Message> {
    if channel in s.messages then s.messages[channel] else []
  }

  function Ids(ms: seq<Message>): (r: seq<string>)
    ensures |r| == |ms| && forall i :: 0 <= i < |ms| ==> r[i] == ms[i].id
  {
    seq(|ms|, i requires 0 <= i < |ms| => ms[i].id)
  }

  predicate Has(ms: seq<Message>, id: string) { exists i :: 0 <= i < |ms| && ms[i].id == id }

  function IdOf(x: Message): string { x.id }

  /** `existing.filter((m) => !ids.has(m.id))` */
  function Keep(ms: seq<Message>, gone: seq<string>): seq<Message> {
    if ms == [] then []
    else (if ms[0].id in gone then [] else [ms[0]]) + Keep(ms[1..], gone)
  }

  function Reverse<T>(s: seq<T>): seq<T> {
    if s == [] then [] else Reverse(s[1..]) + [s[0]]
  }

  /** `existing.some((m) => m.id === id) ? state : [...existing, message]` */
  function Insert(ms: seq<Message>, m: Message): seq<Message> {
    if Has(ms, m.id) then ms else ms + [m]
  }

  /** What is shown while the content is being decrypted. */
  function Base(m: Message): Message {
    if m.e2ee.Some? then m.(content := Some("")) else m
  }

  function ReactionsOf(m: Message): seq<Reaction> {
    if m.reactions.Some? then m.reactions.value else []
  }

  /** The new list of the event's channel. */
  function ListAfter(ms: seq<Message>, e: Event): seq<Message> {
    match e
    case SendReply(_, m) => Insert(ms, m)
    case Create(_, m) => Insert(ms, Base(m))
    case Update(_, m) => MapId(ms, IdOf, m.id, _ => Base(m))
    case Decrypted(_, m, content) => MapId(ms, IdOf, m.id, _ => m.(content := Some(content)))
    case EditReply(_, id, m) => MapId(ms, IdOf, id, _ => m)
    case Delete(_, id) => Keep(ms, [id])
    case BulkDelete(_, ids) => Keep(ms, ids)
    case Page(_, page, older) => if older then Reverse(page) + ms else Reverse(page)
    case SetAll(_, all) => all
    case SetPinned(_, id, pinned) => MapId(ms, IdOf, id, (m: Message) => m.(pinned := pinned))
    case Unpin(_, id) => MapId(ms, IdOf, id, (m: Message) => m.(pinned := false))
    case PinsPage(_, _) => ms
    case ReactionAdd(_, id, emoji, user, me) =>
      MapId(ms, IdOf, id, (m: Message) => m.(reactions := Some(GatewayAdd(ReactionsOf(m), emoji, user == me))))
    case ReactionRemove(_, id, emoji, user, me) =>
      MapId(ms, IdOf, id, (m: Message) => m.(reactions := Some(GatewayRemove(ReactionsOf(m), emoji, user == me))))
    case OwnReactionAdd(_, id, emoji) =>
      MapId(ms, IdOf, id, (m: Message) => m.(reactions := Some(OwnAdd(ReactionsOf(m), emoji))))
    case OwnReactionRemove(_, id, emoji) =>
      MapId(ms, IdOf, id, (m: Message) => m.(reactions := Some(OwnRemove(ReactionsOf(m), emoji))))
    case Rollback(_, id, snapshot) =>
      if snapshot.None? then ms else MapId(ms, IdOf, id, (m: Message) => m.(reactions := snapshot))
  }

  /** Events that can only follow one that started them are ignored when nothing is pending. */
  predicate Enabled(s: Store, e: Event) {
    e.Decrypted? ==> Pending(e.channel, e.message) in s.pending
  }

  function PinsAfter(s: Store, e: Event): map<string, seq<Message>> {
    match e
    case Unpin(c, id) => s.pins[c := Keep(if c in s.pins then s.pins[c] else [], [id])]
    case PinsPage(c, ms) => s.pins[c := ms]
    case _ => s.pins
  }

  function DecryptingAfter(s: Store, e: Event): set<string> {
    match e
    case Create(c, m) => if m.e2ee.Some? && !Has(At(s, c), m.id) then s.decrypting + {m.id} else s.decrypting
    case Update(_, m) => if m.e2ee.Some? then s.decrypting + {m.id} else s.decrypting
    case Decrypted(_, m, _) => s.decrypting - {m.id}
    case _ => s.decrypting
  }

  /** addMessage and updateMessage start a decryption whether or not they changed the list. */
  function PendingAfter(s: Store, e: Event): multiset<Pending> {
    match e
    case Create(c, m) => if m.e2ee.Some? then s.pending + multiset{Pending(c, m)} else s.pending
    case Update(c, m) => if m.e2ee.Some? then s.pending + multiset{Pending(c, m)} else s.pending
    case Decrypted(c, m, _) => s.pending - multiset{Pending(c, m)}
    case _ => s.pending
  }

  /** A page of pins and a rollback without a snapshot do not touch the lists. */
  function MessagesAfter(s: Store, e: Event): map<string, seq<Message>> {
    if e.PinsPage? || (e.Rollback? && e.snapshot.None?) then s.messages
    else s.messages[e.channel := ListAfter(At(s, e.channel), e)]
  }

  function Step(s: Store, e: Event): Store {
    if !Enabled(s, e) then s
    else Store(MessagesAfter(s, e), PinsAfter(s, e), DecryptingAfter(s, e), PendingAfter(s, e))
  }

  function Run(s: Store, events: seq<Event>): Store
    decreases |events|
  {
    if events == [] then s else Step(Run(s, events[..|events| - 1]), events[|events| - 1])
  }

  // ---- Ids: the list refines a sequence of ids that knows nothing of messages ----

  ghost predicate Distinct<T(!new)>(s: seq<T>) { forall i, j :: 0 <= i < j < |s| ==> s[i] != s[j] }

  function KeepIds(ids: seq<string>, gone: seq<string>): seq<string> {
    if ids == [] then []
    else (if ids[0] in gone then [] else [ids[0]]) + KeepIds(ids[1..], gone)
  }

  function Renamed(ids: seq<string>, from: string, to: string): (r: seq<string>)
    ensures |r| == |ids| && forall i :: 0 <= i < |r| ==> r[i] == if ids[i] == from then to else ids[i]
  {
    seq(|ids|, i requires 0 <= i < |ids| => if ids[i] == from then to else ids[i])
  }

  /** Which ids the channel shows after the event, and in which order. */
  function IdsAfter(ids: seq<string>, e: Event): seq<string> {
    match e
    case SendReply(_, m) => if m.id in ids then ids else ids + [m.id]
    case Create(_, m) => if m.id in ids then ids else ids + [m.id]
    case EditReply(_, id, m) => Renamed(ids, id, m.id)
    case Delete(_, id) => KeepIds(ids, [id])
    case BulkDelete(_, gone) => KeepIds(ids, gone)
    case Page(_, page, older) => Reverse(Ids(page)) + if older then ids else []
    case SetAll(_, all) => Ids(all)
    case _ => ids
  }

  lemma {:induction false} KeepRefines(ms: seq<Message>, gone: seq<string>)
    ensures Ids(Keep(ms, gone)) == KeepIds(Ids(ms), gone)
    decreases |ms|
  {
    if ms == [] {
      assert Ids(ms) == [];
    } else {
      KeepRefines(ms[1..], gone);
      assert Ids(ms)[1..] == Ids(ms[1..]);
      var first := if ms[0].id in gone then [] else [ms[0]];
      assert Ids(first + Keep(ms[1..], gone)) == Ids(first) + Ids(Keep(ms[1..], gone));
      assert Ids(first) == if ms[0].id in gone then [] else [Ids(ms)[0]];
    }
  }

  lemma {:induction false} ReverseRefines(ms: seq<Message>)
    ensures Ids(Reverse(ms)) == Reverse(Ids(ms))
    decreases |ms|
  {
    if ms == [] {
      assert Ids(ms) == [];
    } else {
      ReverseRefines(ms[1..]);
      assert Ids(ms)[1..] == Ids(ms[1..]);
      assert Ids(Reverse(ms[1..]) + [ms[0]]) == Ids(Reverse(ms[1..])) + [ms[0].id];
    }
  }

  lemma IdsIn(ms: seq<Message>, id: string)
    ensures Has(ms, id) <==> id in Ids(ms)
  {
    if Has(ms, id) {
      var i :| 0 <= i < |ms| && ms[i].id == id;
      assert Ids(ms)[i] == id;
    }
  }

  lemma InsertRefines(ms: seq<Message>, m: Message)
    ensures Ids(Insert(ms, m)) == if m.id in Ids(ms) then Ids(ms) else Ids(ms) + [m.id]
  {
    IdsIn(ms, m.id);
    assert Ids(ms + [m]) == Ids(ms) + [m.id];
  }

  /** Every event moves the ids as the id list says, whatever the messages are. */
  lemma ListRefines(ms: seq<Message>, e: Event)
    ensures Ids(ListAfter(ms, e)) == IdsAfter(Ids(ms), e)
  {
    match e
    case SendReply(_, m) => InsertRefines(ms, m);
    case Create(_, m) => InsertRefines(ms, Base(m));
    case Delete(_, id) => KeepRefines(ms, [id]);
    case BulkDelete(_, gone) => KeepRefines(ms, gone);
    case Page(_, page, older) =>
      ReverseRefines(page);
      assert Ids(Reverse(page) + ms) == Ids(Reverse(page)) + Ids(ms);
    case _ =>
  }

  lemma StepRefines(s: Store, e: Event, c: string)
    requires Enabled(s, e)
    ensures Ids(At(Step(s, e), c)) == if c == e.channel then IdsAfter(Ids(At(s, c)), e) else Ids(At(s, c))
  {
    ListRefines(At(s, e.channel), e);
  }

  // ---- Ids stay unique ----

  /** The condition on what arrives: a page does not repeat an id, nor one that it is put in front of, and the reply to
      an edit carries the id that was edited or one the channel does not show. */
  ghost predicate Fits(ids: seq<string>, e: Event) {
    match e
    case EditReply(_, id, m) => id !in ids || m.id == id || m.id !in ids
    case Page(_, page, older) => Distinct(Ids(page)) && (older ==> forall m :: m in page ==> m.id !in ids)
    case SetAll(_, all) => Distinct(Ids(all))
    case _ => true
  }

  lemma {:induction false} KeepMembers(ids: seq<string>, gone: seq<string>, id: string)
    ensures id in KeepIds(ids, gone) <==> id in ids && id !in gone
    decreases |ids|
  {
    if ids != [] {
      KeepMembers(ids[1..], gone, id);
      assert ids == [ids[0]] + ids[1..];
    }
  }

  lemma {:induction false} KeepDistinct(ids: seq<string>, gone: seq<string>)
    requires Distinct(ids)
    ensures Distinct(KeepIds(ids, gone))
    decreases |ids|
  {
    if ids != [] {
      KeepDistinct(ids[1..], gone);
      KeepMembers(ids[1..], gone, ids[0]);
    }
  }

  lemma {:induction false} ReverseAt<T>(s: seq<T>)
    ensures |Reverse(s)| == |s| && forall i :: 0 <= i < |s| ==> Reverse(s)[i] == s[|s| - 1 - i]
    decreases |s|
  {
    if s != [] {
      ReverseAt(s[1..]);
    }
  }

  lemma ReverseDistinct(s: seq<string>)
    ensures Distinct(Reverse(s)) <==> Distinct(s)
  {
    ReverseAt(s);
    if Distinct(Reverse(s)) {
      forall i, j | 0 <= i < j < |s| ensures s[i] != s[j] {
        assert Reverse(s)[|s| - 1 - j] != Reverse(s)[|s| - 1 - i];
      }
    }
  }

  lemma AppendDistinct(a: seq<string>, b: seq<string>)
    requires Distinct(b)
    ensures Distinct(a + b) <==> Distinct(a) && forall i :: 0 <= i < |a| ==> a[i] !in b
  {
    var ab := a + b;
    if Distinct(ab) {
      forall i, j | 0 <= i < j < |a| ensures a[i] != a[j] { assert ab[i] != ab[j]; }
      forall i, j | 0 <= i < |a| && 0 <= j < |b| ensures a[i] != b[j] { assert ab[i] != ab[|a| + j]; }
    }
  }

  lemma RenameDistinct(ids: seq<string>, from: string, to: string)
    requires Distinct(ids)
    ensures Distinct(Renamed(ids, from, to)) <==> from !in ids || to == from || to !in ids
  {
    var r := Renamed(ids, from, to);
    if from in ids && to != from && to in ids {
      var i :| 0 <= i < |ids| && ids[i] == from;
      var j :| 0 <= j < |ids| && ids[j] == to;
      assert r[i] == r[j] == to;
    }
  }

  lemma PageDistinct(ids: seq<string>, page: seq<Message>, older: bool)
    requires Distinct(ids)
    ensures Distinct(Reverse(Ids(page)) + if older then ids else [])
            <==> Distinct(Ids(page)) && (older ==> forall m :: m in page ==> m.id !in ids)
  {
    var front := Reverse(Ids(page));
    ReverseDistinct(Ids(page));
    ReverseAt(Ids(page));
    AppendDistinct(front, if older then ids else []);
    if older && forall i :: 0 <= i < |front| ==> front[i] !in ids {
      forall k | 0 <= k < |page| ensures page[k].id !in ids {
        assert front[|page| - 1 - k] == page[k].id;
      }
    }
  }

  lemma StepDistinctIff(ids: seq<string>, e: Event)
    requires Distinct(ids)
    ensures Distinct(IdsAfter(ids, e)) <==> Fits(ids, e)
  {
    match e
    case EditReply(_, id, m) => RenameDistinct(ids, id, m.id);
    case Delete(_, id) => KeepDistinct(ids, [id]);
    case BulkDelete(_, gone) => KeepDistinct(ids, gone);
    case Page(_, page, older) => PageDistinct(ids, page, older);
    case _ =>
  }

  ghost predicate Unique(s: Store) {
    forall c :: c in s.messages ==> Distinct(Ids(s.messages[c]))
  }

  /** Every event of the run fits the ids its channel shows when it happens. */
  ghost predicate AllFit(s: Store, events: seq<Event>)
    decreases |events|
  {
    events == [] ||
    (AllFit(s, events[..|events| - 1])
     && var e := events[|events| - 1]; Fits(Ids(At(Run(s, events[..|events| - 1]), e.channel)), e))
  }

  /** Sends, gateway events, edits, deletions, decryptions, reactions and fitting pages, in any order, never show an id
      twice in a channel. */
  lemma {:induction false} RunKeepsUnique(s: Store, events: seq<Event>)
    requires Unique(s) && AllFit(s, events)
    ensures Unique(Run(s, events))
    decreases |events|
  {
    if events != [] {
      var before, e := Run(s, events[..|events| - 1]), events[|events| - 1];
      RunKeepsUnique(s, events[..|events| - 1]);
      assert Distinct(Ids(At(before, e.channel)));
      StepDistinctIff(Ids(At(before, e.channel)), e);
      StepKeepsUnique(before, e);
    }
  }

  lemma StepKeepsUnique(s: Store, e: Event)
    requires Unique(s) && Distinct(IdsAfter(Ids(At(s, e.channel)), e))
    ensures Unique(Step(s, e))
  {
    if Enabled(s, e) {
      forall c | c in Step(s, e).messages ensures Distinct(Ids(Step(s, e).messages[c])) {
        StepRefines(s, e, c);
        assert Step(s, e).messages[c] == At(Step(s, e), c);
        assert c != e.channel ==> At(s, c) == s.messages[c];
      }
    }
  }

  // ---- Which ids are shown ----

  /** What the event says about an id of a channel: shown, not shown, or nothing. */
  function Says(e: Event, c: string, id: string): Option<bool> {
    if e.channel != c then None
    else match e
      case SendReply(_, m) => if m.id == id then Some(true) else None
      case Create(_, m) => if m.id == id then Some(true) else None
      case Delete(_, gone) => if gone == id then Some(false) else None
      case BulkDelete(_, gone) => if id in gone then Some(false) else None
      case Page(_, page, older) => if id in Ids(page) then Some(true) else if older then None else Some(false)
      case SetAll(_, all) => Some(id in Ids(all))
      case _ => None
  }

  function LastSays(events: seq<Event>, c: string, id: string): Option<bool>
    decreases |events|
  {
    if events == [] then None
    else if Says(events[|events| - 1], c, id).Some? then Says(events[|events| - 1], c, id)
    else LastSays(events[..|events| - 1], c, id)
  }

  lemma ShownAfter(ids: seq<string>, e: Event, id: string)
    requires e.EditReply? ==> e.message.id == e.id
    ensures id in IdsAfter(ids, e) <==> if Says(e, e.channel, id).Some? then Says(e, e.channel, id).value else id in ids
  {
    match e
    case EditReply(_, from, m) => assert Renamed(ids, from, m.id) == ids;
    case Delete(_, gone) => KeepMembers(ids, [gone], id);
    case BulkDelete(_, gone) => KeepMembers(ids, gone, id);
    case Page(_, page, older) =>
      ReverseAt(Ids(page));
      if id in Ids(page) {
        var k :| 0 <= k < |page| && Ids(page)[k] == id;
        assert Reverse(Ids(page))[|page| - 1 - k] == id;
      }
    case _ =>
  }

  /** After any run an id is shown iff the last event that says anything about it says so: late decryptions, updates,
      edits, pins and reactions neither add nor resurrect an id, and a reply to a send that arrives after the deletion
      of the message does. */
  lemma {:induction false} ShownIff(s: Store, events: seq<Event>, c: string, id: string)
    requires forall i :: 0 <= i < |events| && events[i].EditReply? ==> events[i].message.id == events[i].id
    ensures id in Ids(At(Run(s, events), c))
            <==> if LastSays(events, c, id).Some? then LastSays(events, c, id).value else id in Ids(At(s, c))
    decreases |events|
  {
    if events != [] {
      var before, e := Run(s, events[..|events| - 1]), events[|events| - 1];
      ShownIff(s, events[..|events| - 1], c, id);
      if Enabled(before, e) {
        StepRefines(before, e, c);
        ShownAfter(Ids(At(before, c)), e, id);
      }
    }
  }

  // ---- Decryptions ----

  /** Every message shown as being decrypted has a decryption under way. */
  ghost predicate DecryptingOk(s: Store) {
    forall id :: id in s.decrypting ==> exists p :: p in s.pending && p.message.id == id
  }

  lemma StepKeepsDecrypting(s: Store, e: Event)
    requires DecryptingOk(s)
    ensures DecryptingOk(Step(s, e))
  {
    var after := Step(s, e);
    forall id | id in after.decrypting ensures exists p :: p in after.pending && p.message.id == id {
      if id in s.decrypting {
        var p :| p in s.pending && p.message.id == id;
        assert p in after.pending;
      } else {
        assert Pending(e.channel, e.message) in after.pending;
      }
    }
  }

  /** Once every decryption that was started has come back, nothing is left marked as being decrypted. */
  lemma {:induction false} NothingLeftDecrypting(events: seq<Event>)
    ensures DecryptingOk(Run(Init(), events))
    ensures Run(Init(), events).pending == multiset{} ==> Run(Init(), events).decrypting == {}
    decreases |events|
  {
    if events != [] {
      NothingLeftDecrypting(events[..|events| - 1]);
      StepKeepsDecrypting(Run(Init(), events[..|events| - 1]), events[|events| - 1]);
    }
  }

  /** The decryption that ends last decides what is shown, even when it belongs to the older version. */
  lemma LastDecryptionWins(s: Store, c: string, v1: Message, v2: Message, t1: string, t2: string)
    requires v1.id == v2.id && v1.e2ee.Some? && v2.e2ee.Some? && v1 != v2 && !Has(At(s, c), v1.id)
    ensures var shown := Step(Step(s, Create(c, v1)), Update(c, v2));
            && At(shown, c) == At(s, c) + [v2.(content := Some(""))]
            && At(Step(Step(shown, Decrypted(c, v1, t1)), Decrypted(c, v2, t2)), c)
               == At(s, c) + [v2.(content := Some(t2))]
            && At(Step(Step(shown, Decrypted(c, v2, t2)), Decrypted(c, v1, t1)), c)
               == At(s, c) + [v1.(content := Some(t1))]
  {
    var ms, s1 := At(s, c), Step(s, Create(c, v1));
    var shown := Step(s1, Update(c, v2));
    assert At(s1, c) == ms + [Base(v1)];
    MapLast(ms, Base(v1), Base(v2));
    assert Pending(c, v1) in s1.pending;
    DecryptLast(shown, c, ms, Base(v2), v1, t1);
    DecryptLast(shown, c, ms, Base(v2), v2, t2);
    DecryptLast(Step(shown, Decrypted(c, v1, t1)), c, ms, v1.(content := Some(t1)), v2, t2);
    DecryptLast(Step(shown, Decrypted(c, v2, t2)), c, ms, v2.(content := Some(t2)), v1, t1);
  }

  lemma DecryptLast(s: Store, c: string, ms: seq<Message>, was: Message, m: Message, content: string)
    requires At(s, c) == ms + [was] && was.id == m.id && !Has(ms, m.id) && Pending(c, m) in s.pending
    ensures At(Step(s, Decrypted(c, m, content)), c) == ms + [m.(content := Some(content))]
    ensures forall p :: p in s.pending && p != Pending(c, m) ==> p in Step(s, Decrypted(c, m, content)).pending
  {
    MapLast(ms, was, m.(content := Some(content)));
  }

  lemma MapLast(ms: seq<Message>, was: Message, now: Message)
    requires !Has(ms, was.id)
    ensures MapId(ms + [was], IdOf, was.id, _ => now) == ms + [now]
  {
  }

  // ---- Reactions of one message through a run ----

  /** The channel shows the message, with these reactions. */
  ghost predicate Shows(ms: seq<Message>, id: string, rs: seq<Reaction>) {
    Has(ms, id) && forall i :: 0 <= i < |ms| && ms[i].id == id ==> ReactionsOf(ms[i]) == rs
  }

  /** The event leaves the message in place, and touches its reactions only as the gateway reports them. */
  predicate Spares(e: Event, c: string, id: string, me: string) {
    e.channel != c ||
    match e
    case Update(_, m) => m.id != id
    case Decrypted(_, m, _) => m.id != id
    case EditReply(_, edited, m) => edited != id && m.id != id
    case Delete(_, gone) => gone != id
    case BulkDelete(_, gone) => id !in gone
    case Page(_, page, older) => older && id !in Ids(page)
    case SetAll(_, _) => false
    case ReactionAdd(_, on, _, _, current) => on == id ==> current == me
    case ReactionRemove(_, on, _, _, current) => on == id ==> current == me
    case OwnReactionAdd(_, on, _) => on != id
    case OwnReactionRemove(_, on, _) => on != id
    case Rollback(_, on, _) => on != id
    case _ => true
  }

  /** The reaction events of the message among those of the run. */
  function ReactionEvent(e: Event, c: string, id: string): seq<Reactions.Event> {
    match e
    case ReactionAdd(d, on, emoji, user, _) => if d == c && on == id then [Add(emoji, user)] else []
    case ReactionRemove(d, on, emoji, user, _) => if d == c && on == id then [Remove(emoji, user)] else []
    case _ => []
  }

  function ReactionEvents(events: seq<Event>, c: string, id: string): seq<Reactions.Event>
    decreases |events|
  {
    if events == [] then []
    else ReactionEvents(events[..|events| - 1], c, id) + ReactionEvent(events[|events| - 1], c, id)
  }

  lemma {:induction false} KeepShows(ms: seq<Message>, gone: seq<string>, id: string)
    requires id !in gone
    ensures Has(ms, id) ==> Has(Keep(ms, gone), id)
    ensures forall m :: m in Keep(ms, gone) ==> m in ms
    decreases |ms|
  {
    if ms != [] {
      KeepShows(ms[1..], gone, id);
      var kept := Keep(ms, gone);
      if ms[0].id == id {
        assert kept[0] == ms[0];
      } else if Has(ms, id) {
        var i :| 0 <= i < |ms| && ms[i].id == id;
        assert ms[1..][i - 1].id == id;
        var rest := Keep(ms[1..], gone);
        var k :| 0 <= k < |rest| && rest[k].id == id;
        assert kept[|kept| - |rest| + k] == rest[k];
      }
    }
  }

  lemma RemovalShows(ms: seq<Message>, gone: seq<string>, id: string, rs: seq<Reaction>)
    requires Shows(ms, id, rs) && id !in gone
    ensures Shows(Keep(ms, gone), id, rs)
  {
    KeepShows(ms, gone, id);
    var kept := Keep(ms, gone);
    forall i | 0 <= i < |kept| && kept[i].id == id ensures ReactionsOf(kept[i]) == rs {
      assert kept[i] in ms;
    }
  }

  lemma GrowthShows(front: seq<Message>, ms: seq<Message>, back: seq<Message>, id: string, rs: seq<Reaction>)
    requires Shows(ms, id, rs) && !Has(front, id) && !Has(back, id)
    ensures Shows(front + ms + back, id, rs)
  {
    var i :| 0 <= i < |ms| && ms[i].id == id;
    assert (front + ms + back)[|front| + i].id == id;
  }

  lemma AppendedShows(ms: seq<Message>, m: Message, id: string, rs: seq<Reaction>)
    requires Shows(ms, id, rs) && !Has(ms, m.id)
    ensures Shows(ms + [m], id, rs)
  {
    GrowthShows([], ms, [m], id, rs);
    assert [] + ms + [m] == ms + [m];
  }

  lemma ListSpares(ms: seq<Message>, e: Event, c: string, id: string, rs: seq<Reaction>, me: string)
    requires Shows(ms, id, rs) && Spares(e, c, id, me) && e.channel == c
    ensures Shows(ListAfter(ms, e), id, HandleAll(rs, ReactionEvent(e, c, id), me))
  {
    match e
    case SendReply(_, m) => if !Has(ms, m.id) { AppendedShows(ms, m, id, rs); }
    case Create(_, m) => if !Has(ms, m.id) { AppendedShows(ms, Base(m), id, rs); }
    case Delete(_, gone) => RemovalShows(ms, [gone], id, rs);
    case BulkDelete(_, gone) => RemovalShows(ms, gone, id, rs);
    case Page(_, page, older) =>
      ReverseAt(page);
      IdsIn(page, id);
      GrowthShows(Reverse(page), ms, [], id, rs);
      assert Reverse(page) + ms + [] == Reverse(page) + ms;
    case _ => MappedSpares(ms, e, c, id, rs, me);
  }

  lemma MappedSpares(ms: seq<Message>, e: Event, c: string, id: string, rs: seq<Reaction>, me: string)
    requires Shows(ms, id, rs) && Spares(e, c, id, me) && e.channel == c
    requires !e.SendReply? && !e.Create? && !e.Delete? && !e.BulkDelete? && !e.Page?
    ensures Shows(ListAfter(ms, e), id, HandleAll(rs, ReactionEvent(e, c, id), me))
  {
    var after := ListAfter(ms, e);
    var i :| 0 <= i < |ms| && ms[i].id == id;
    assert after[i].id == id;
    match e
    case ReactionAdd(_, on, emoji, user, _) =>
      if on == id { assert HandleAll(rs, [Add(emoji, user)], me) == Handle(rs, Add(emoji, user), me); }
    case ReactionRemove(_, on, emoji, user, _) =>
      if on == id { assert HandleAll(rs, [Remove(emoji, user)], me) == Handle(rs, Remove(emoji, user), me); }
    case _ =>
  }

  lemma {:induction false} HandleAllSplit(rs: seq<Reaction>, a: seq<Reactions.Event>, b: seq<Reactions.Event>,
                                          me: string)
    ensures HandleAll(rs, a + b, me) == HandleAll(HandleAll(rs, a, me), b, me)
    decreases |a|
  {
    if a == [] {
      assert a + b == b;
    } else {
      assert (a + b)[1..] == a[1..] + b;
      HandleAllSplit(Handle(rs, a[0], me), a[1..], b, me);
    }
  }

  /** While other events come and go, the reactions of a message are what its own reaction events make of them. */
  lemma {:induction false} ReactionsThroughRun(s: Store, events: seq<Event>, c: string, id: string, rs: seq<Reaction>,
                                               me: string)
    requires Shows(At(s, c), id, rs) && forall i :: 0 <= i < |events| ==> Spares(events[i], c, id, me)
    ensures Shows(At(Run(s, events), c), id, HandleAll(rs, ReactionEvents(events, c, id), me))
    decreases |events|
  {
    if events != [] {
      var init, e := events[..|events| - 1], events[|events| - 1];
      var mid := HandleAll(rs, ReactionEvents(init, c, id), me);
      ReactionsThroughRun(s, init, c, id, rs, me);
      HandleAllSplit(rs, ReactionEvents(init, c, id), ReactionEvent(e, c, id), me);
      if e.channel == c {
        ListSpares(At(Run(s, init), c), e, c, id, mid, me);
        assert !Enabled(Run(s, init), e) ==> ReactionEvent(e, c, id) == [];
      } else {
        assert ReactionEvent(e, c, id) == [];
      }
    }
  }

  /** So they show the server's sets, when every one of those events changed a set. */
  lemma ShownReactionsRefineSets(s: Store, events: seq<Event>, c: string, id: string, rs: seq<Reaction>, users: Users,
                                 me: string)
    requires Shows(At(s, c), id, rs) && Represents(rs, users, me)
    requires forall i :: 0 <= i < |events| ==> Spares(events[i], c, id, me)
    requires AllEffective(users, ReactionEvents(events, c, id))
    ensures exists rs' :: Shows(At(Run(s, events), c), id, rs')
                          && Represents(rs', ApplyAll(users, ReactionEvents(events, c, id)), me)
  {
    ReactionsThroughRun(s, events, c, id, rs, me);
    GatewayRefinesSets(rs, users, me, ReactionEvents(events, c, id));
  }

  // ---- The content of one message through a run ----

  /** The channel shows the message, every copy with this content and this encrypted payload. */
  ghost predicate ShowsBody(ms: seq<Message>, id: string, m: Message) {
    Has(ms, id) && forall i :: 0 <= i < |ms| && ms[i].id == id ==> ms[i].content == m.content && ms[i].e2ee == m.e2ee
  }

  /** The event leaves the message where it is. */
  predicate Leaves(e: Event, c: string, id: string) {
    e.channel != c ||
    match e
    case EditReply(_, edited, m) => edited == id <==> m.id == id
    case Delete(_, gone) => gone != id
    case BulkDelete(_, gone) => id !in gone
    case Page(_, page, older) => older && id !in Ids(page)
    case SetAll(_, _) => false
    case _ => true
  }

  /** The version the event writes over the message, and what it writes. */
  function Writes(s: Store, e: Event, c: string, id: string): Option<(Message, Message)> {
    if e.channel != c || !Enabled(s, e) then None
    else match e
      case Update(_, m) =>
        if m.id == id then Some((m, if m.e2ee.Some? then m.(content := Some("")) else m)) else None
      case Decrypted(_, m, content) => if m.id == id then Some((m, m.(content := Some(content)))) else None
      case EditReply(_, edited, m) => if edited == id then Some((m, m)) else None
      case _ => None
  }

  /** The last write of the run, or the given one. */
  function LastWrite(s: Store, events: seq<Event>, c: string, id: string, first: (Message, Message)): (Message, Message)
    decreases |events|
  {
    if events == [] then first
    else
      var before := Run(s, events[..|events| - 1]);
      match Writes(before, events[|events| - 1], c, id)
      case Some(w) => w
      case None => LastWrite(s, events[..|events| - 1], c, id, first)
  }

  lemma OverBody(ms: seq<Message>, on: string, w: Message, id: string, m: Message)
    requires ShowsBody(ms, id, m) && (on == id <==> w.id == id)
    ensures ShowsBody(MapId(ms, IdOf, on, _ => w), id, if on == id then w else m)
  {
    var i :| 0 <= i < |ms| && ms[i].id == id;
    assert MapId(ms, IdOf, on, _ => w)[i].id == id;
  }

  lemma KeepBody(ms: seq<Message>, gone: seq<string>, id: string, m: Message)
    requires ShowsBody(ms, id, m) && id !in gone
    ensures ShowsBody(Keep(ms, gone), id, m)
  {
    KeepShows(ms, gone, id);
    var kept := Keep(ms, gone);
    forall i | 0 <= i < |kept| && kept[i].id == id ensures kept[i].content == m.content && kept[i].e2ee == m.e2ee {
      assert kept[i] in ms;
    }
  }

  lemma GrownBody(front: seq<Message>, ms: seq<Message>, back: seq<Message>, id: string, m: Message)
    requires ShowsBody(ms, id, m) && !Has(front, id) && !Has(back, id)
    ensures ShowsBody(front + ms + back, id, m)
  {
    var i :| 0 <= i < |ms| && ms[i].id == id;
    assert (front + ms + back)[|front| + i].id == id;
  }

  lemma InsertBody(ms: seq<Message>, x: Message, id: string, m: Message)
    requires ShowsBody(ms, id, m)
    ensures ShowsBody(Insert(ms, x), id, m)
  {
    if !Has(ms, x.id) {
      GrownBody([], ms, [x], id, m);
      assert [] + ms + [x] == ms + [x];
    }
  }

  lemma PageBody(ms: seq<Message>, page: seq<Message>, id: string, m: Message)
    requires ShowsBody(ms, id, m) && id !in Ids(page)
    ensures ShowsBody(Reverse(page) + ms, id, m)
  {
    ReverseAt(page);
    IdsIn(page, id);
    GrownBody(Reverse(page), ms, [], id, m);
    assert Reverse(page) + ms + [] == Reverse(page) + ms;
  }

  lemma ListBody(s: Store, e: Event, id: string, m: Message)
    requires ShowsBody(At(s, e.channel), id, m) && Leaves(e, e.channel, id) && Enabled(s, e)
    ensures var w := Writes(s, e, e.channel, id);
            ShowsBody(ListAfter(At(s, e.channel), e), id, if w.Some? then w.value.1 else m)
  {
    var ms := At(s, e.channel);
    match e
    case SendReply(_, x) => InsertBody(ms, x, id, m);
    case Create(_, x) => InsertBody(ms, Base(x), id, m);
    case Update(_, x) => OverBody(ms, x.id, Base(x), id, m);
    case Decrypted(_, x, content) => OverBody(ms, x.id, x.(content := Some(content)), id, m);
    case EditReply(_, edited, x) => OverBody(ms, edited, x, id, m);
    case Delete(_, gone) => KeepBody(ms, [gone], id, m);
    case BulkDelete(_, gone) => KeepBody(ms, gone, id, m);
    case Page(_, page, _) => PageBody(ms, page, id, m);
    case _ => OtherBody(ms, e, id, m);
  }

  lemma OtherBody(ms: seq<Message>, e: Event, id: string, m: Message)
    requires ShowsBody(ms, id, m)
    requires e.SetPinned? || e.Unpin? || e.PinsPage? || e.ReactionAdd? || e.ReactionRemove? || e.OwnReactionAdd?
             || e.OwnReactionRemove? || e.Rollback?
    ensures ShowsBody(ListAfter(ms, e), id, m)
  {
    var after := ListAfter(ms, e);
    var i :| 0 <= i < |ms| && ms[i].id == id;
    assert after[i].id == id;
  }

  /** Through any run that leaves a message in place, its content is what the last update, decryption or edit reply
      for it wrote. */
  lemma {:induction false} ContentThroughRun(s: Store, events: seq<Event>, c: string, id: string,
                                             first: (Message, Message))
    requires ShowsBody(At(s, c), id, first.1) && forall i :: 0 <= i < |events| ==> Leaves(events[i], c, id)
    ensures ShowsBody(At(Run(s, events), c), id, LastWrite(s, events, c, id, first).1)
    decreases |events|
  {
    if events != [] {
      var init, e := events[..|events| - 1], events[|events| - 1];
      ContentThroughRun(s, init, c, id, first);
      if e.channel == c && Enabled(Run(s, init), e) {
        ListBody(Run(s, init), e, id, LastWrite(s, init, c, id, first).1);
      }
    }
  }

  /** The newest version the run brings: the message of the last update or edit reply, or the given one. */
  function Newest(events: seq<Event>, c: string, id: string, first: Message): Message
    decreases |events|
  {
    if events == [] then first
    else
      var e := events[|events| - 1];
      if e.channel == c && e.Update? && e.message.id == id then e.message
      else if e.channel == c && e.EditReply? && e.id == id then e.message
      else Newest(events[..|events| - 1], c, id, first)
  }

  lemma {:induction false} WritesItsVersion(s: Store, events: seq<Event>, c: string, id: string,
                                            first: (Message, Message))
    requires first.1.e2ee == first.0.e2ee
    ensures var w := LastWrite(s, events, c, id, first); w.1.e2ee == w.0.e2ee
    decreases |events|
  {
    if events != [] {
      WritesItsVersion(s, events[..|events| - 1], c, id, first);
    }
  }

  /** The message is shown in the version with this encrypted payload. */
  ghost predicate ShowsVersion(ms: seq<Message>, id: string, v: Message) {
    forall i :: 0 <= i < |ms| && ms[i].id == id ==> ms[i].e2ee == v.e2ee
  }

  lemma BodyIsVersionIff(ms: seq<Message>, id: string, m: Message, v: Message)
    requires ShowsBody(ms, id, m)
    ensures ShowsVersion(ms, id, v) <==> m.e2ee == v.e2ee
  {
    var i :| 0 <= i < |ms| && ms[i].id == id;
    assert ms[i].e2ee == m.e2ee;
  }

  /** Where the encrypted payload tells versions apart, the newest version is shown iff the last write is its own: a
      decryption of an older version that ends later takes its place. */
  lemma NewestShownIff(s: Store, events: seq<Event>, c: string, id: string, first: (Message, Message))
    requires ShowsBody(At(s, c), id, first.1) && first.1.e2ee == first.0.e2ee
    requires forall i :: 0 <= i < |events| ==> Leaves(events[i], c, id)
    requires var w, v := LastWrite(s, events, c, id, first).0, Newest(events, c, id, first.0);
             w.e2ee == v.e2ee ==> w == v
    ensures var v := Newest(events, c, id, first.0);
            ShowsVersion(At(Run(s, events), c), id, v) <==> LastWrite(s, events, c, id, first).0 == v
  {
    var w := LastWrite(s, events, c, id, first);
    ContentThroughRun(s, events, c, id, first);
    WritesItsVersion(s, events, c, id, first);
    BodyIsVersionIff(At(Run(s, events), c), id, w.1, Newest(events, c, id, first.0));
  }

  // ---- Rollback of an optimistic reaction ----

  /** `existing.find((m) => m.id === id)?.reactions` */
  function Snapshot(ms: seq<Message>, id: string): (r: Option<seq<Reaction>>)
    ensures Distinct(Ids(ms)) ==> forall i :: 0 <= i < |ms| && ms[i].id == id ==> r == ms[i].reactions
    ensures !Has(ms, id) ==> r.None?
  {
    if ms == [] then None
    else if ms[0].id == id then ms[0].reactions
    else
      assert forall i :: 0 <= i < |ms| - 1 ==> Ids(ms[1..])[i] == Ids(ms)[i + 1];
      Snapshot(ms[1..], id)
  }

  lemma OptimisticKeepsTheRest(ms: seq<Message>, e: Event)
    requires e.OwnReactionAdd? || e.OwnReactionRemove?
    ensures var mid := ListAfter(ms, e);
            && |mid| == |ms|
            && forall i :: 0 <= i < |ms| ==>
                 if ms[i].id != e.id then mid[i] == ms[i]
                 else mid[i].reactions.Some? && mid[i].(reactions := ms[i].reactions) == ms[i]
  {
  }

  /** A failed reaction with nothing in between leaves the list as it was iff the message is not shown or had a list of
      reactions: a message without one keeps the reaction that the server refused. */
  lemma RollbackRestoresIff(ms: seq<Message>, e: Event)
    requires Distinct(Ids(ms)) && (e.OwnReactionAdd? || e.OwnReactionRemove?)
    ensures ListAfter(ListAfter(ms, e), Rollback(e.channel, e.id, Snapshot(ms, e.id))) == ms
            <==> !Has(ms, e.id) || Snapshot(ms, e.id).Some?
  {
    var mid := ListAfter(ms, e);
    OptimisticKeepsTheRest(ms, e);
    RestoredIff(ms, mid, e.channel, e.id);
  }

  lemma RestoredIff(ms: seq<Message>, mid: seq<Message>, c: string, id: string)
    requires Distinct(Ids(ms)) && |mid| == |ms|
    requires forall i :: 0 <= i < |ms| ==>
               if ms[i].id != id then mid[i] == ms[i]
               else mid[i].reactions.Some? && mid[i].(reactions := ms[i].reactions) == ms[i]
    ensures ListAfter(mid, Rollback(c, id, Snapshot(ms, id))) == ms <==> !Has(ms, id) || Snapshot(ms, id).Some?
  {
    if Has(ms, id) && Snapshot(ms, id).None? {
      var i :| 0 <= i < |ms| && ms[i].id == id;
      assert mid[i] != ms[i];
    }
  }

  /** A rollback puts the old reactions back over whatever the gateway reported in between: the message then shows the
      server's sets iff those events left every size, and the user's own choice, as they were.  When each of them
      changed the server's sets, that is iff they added each emoji as often as they removed it, over all users and for
      this one. */
  lemma RollbackRepresentsIff(s: Store, events: seq<Event>, c: string, id: string, rs: seq<Reaction>, users: Users,
                              me: string)
    requires Represents(rs, users, me) && Has(At(Run(s, events), c), id)
    ensures var after := At(Step(Run(s, events), Rollback(c, id, Some(rs))), c);
            var now := ApplyAll(users, ReactionEvents(events, c, id));
            && Shows(after, id, rs) && Ids(after) == Ids(At(Run(s, events), c))
            && (Represents(rs, now, me) <==> SameCounts(users, now, me))
            && (AllEffective(users, ReactionEvents(events, c, id)) ==>
                  (Represents(rs, now, me) <==> Balanced(ReactionEvents(events, c, id), me)))
  {
    var before := At(Run(s, events), c);
    var after := ListAfter(before, Rollback(c, id, Some(rs)));
    var i :| 0 <= i < |before| && before[i].id == id;
    assert after[i].id == id;
    assert At(Step(Run(s, events), Rollback(c, id, Some(rs))), c) == after;
    ListRefines(before, Rollback(c, id, Some(rs)));
    RepresentsBothIff(rs, users, ApplyAll(users, ReactionEvents(events, c, id)), me);
    if AllEffective(users, ReactionEvents(events, c, id)) {
      OldListRepresentsIff(rs, users, ReactionEvents(events, c, id), me);
    }
  }
}
