/** The reaction handlers of client/src/stores/messageStore.ts, on the reactions of one message. */
module Reactions {
  import opened Options

  datatype Reaction = Reaction(emoji: string, count: int, me: bool)

  /** `reactions.findIndex((r) => r.emoji === emoji)` */
  function FindEmoji(rs: seq<Reaction>, emoji: string): (r: Option<nat>)
    ensures r.Some? ==> r.value < |rs| && rs[r.value].emoji == emoji
    ensures r.Some? ==> forall i :: 0 <= i < r.value ==> rs[i].emoji != emoji
    ensures r.None? ==> forall i :: 0 <= i < |rs| ==> rs[i].emoji != emoji
    decreases |rs|
  {
    if rs == [] then None
    else if rs[0].emoji == emoji then Some(0)
    else match FindEmoji(rs[1..], emoji)
      case None => None
      case Some(i) => Some(i + 1)
  }

  function Without(rs: seq<Reaction>, i: nat): (r: seq<Reaction>)
    requires i < |rs|
    ensures |r| == |rs| - 1
    ensures forall k :: 0 <= k < |r| ==> r[k] == rs[if k < i then k else k + 1]
  {
    rs[..i] + rs[i + 1..]
  }

  /** handleReactionAdd */
  function GatewayAdd(rs: seq<Reaction>, emoji: string, isMe: bool): seq<Reaction> {
    match FindEmoji(rs, emoji)
    case Some(i) => rs[i := Reaction(emoji, rs[i].count + 1, rs[i].me || isMe)]
    case None => rs + [Reaction(emoji, 1, isMe)]
  }

  /** handleReactionRemove */
  function GatewayRemove(rs: seq<Reaction>, emoji: string, isMe: bool): seq<Reaction> {
    match FindEmoji(rs, emoji)
    case Some(i) =>
      if rs[i].count <= 1 then Without(rs, i)
      else rs[i := Reaction(emoji, rs[i].count - 1, if isMe then false else rs[i].me)]
    case None => rs
  }

  /** The optimistic half of addReaction. */
  function OwnAdd(rs: seq<Reaction>, emoji: string): seq<Reaction> {
    match FindEmoji(rs, emoji)
    case Some(i) => if rs[i].me then rs else rs[i := Reaction(emoji, rs[i].count + 1, true)]
    case None => rs + [Reaction(emoji, 1, true)]
  }

  /** The optimistic half of removeReaction. */
  function OwnRemove(rs: seq<Reaction>, emoji: string): seq<Reaction> {
    match FindEmoji(rs, emoji)
    case Some(i) =>
      if rs[i].count <= 1 then Without(rs, i)
      else rs[i := Reaction(emoji, rs[i].count - 1, false)]
    case None => rs
  }

  // ---- The set of users behind every emoji ----

  type Users = map<string, set<string>>

  function Of(users: Users, emoji: string): set<string> {
    if emoji in users then users[emoji] else {}
  }

  /** The reactions say of every emoji how many users chose it and whether the current user is one of them, and list
      exactly the emojis that somebody chose, once each. */
  ghost predicate Represents(rs: seq<Reaction>, users: Users, me: string) {
    && (forall i, j :: 0 <= i < j < |rs| ==> rs[i].emoji != rs[j].emoji)
    && (forall i :: 0 <= i < |rs| ==> EntryOk(rs[i], users, me))
    && forall emoji :: Of(users, emoji) != {} ==> FindEmoji(rs, emoji).Some?
  }

  ghost predicate EntryOk(r: Reaction, users: Users, me: string) {
    Of(users, r.emoji) != {} && r.count == |Of(users, r.emoji)| && (r.me <==> me in Of(users, r.emoji))
  }

  datatype Event = Add(emoji: string, user: string) | Remove(emoji: string, user: string)

  /** What the server's sets become. */
  function Apply(users: Users, e: Event): Users {
    match e
    case Add(emoji, user) => users[emoji := Of(users, emoji) + {user}]
    case Remove(emoji, user) => users[emoji := Of(users, emoji) - {user}]
  }

  /** The event changes the server's sets. */
  predicate Effective(users: Users, e: Event) {
    match e
    case Add(emoji, user) => user !in Of(users, emoji)
    case Remove(emoji, user) => user in Of(users, emoji)
  }

  function Handle(rs: seq<Reaction>, e: Event, me: string): seq<Reaction> {
    match e
    case Add(emoji, user) => GatewayAdd(rs, emoji, user == me)
    case Remove(emoji, user) => GatewayRemove(rs, emoji, user == me)
  }

  lemma Found(rs: seq<Reaction>, emoji: string, k: nat)
    requires k < |rs| && rs[k].emoji == emoji
    ensures FindEmoji(rs, emoji).Some?
  {
  }

  lemma OthersOk(rs: seq<Reaction>, users: Users, users': Users, me: string, emoji: string)
    requires Represents(rs, users, me)
    requires forall other :: other != emoji ==> Of(users', other) == Of(users, other)
    ensures forall i :: 0 <= i < |rs| && rs[i].emoji != emoji ==> EntryOk(rs[i], users', me)
  {
  }

  /** Replacing, adding and dropping the entry of one emoji. */
  lemma Replaced(rs: seq<Reaction>, users: Users, users': Users, me: string, r: Reaction)
    requires Represents(rs, users, me) && FindEmoji(rs, r.emoji).Some? && EntryOk(r, users', me)
    requires forall other :: other != r.emoji ==> Of(users', other) == Of(users, other)
    ensures Represents(rs[FindEmoji(rs, r.emoji).value := r], users', me)
  {
    var i := FindEmoji(rs, r.emoji).value;
    var after := rs[i := r];
    OthersOk(rs, users, users', me, r.emoji);
    forall emoji | Of(users', emoji) != {} ensures FindEmoji(after, emoji).Some? {
      Found(after, emoji, if emoji == r.emoji then i else FindEmoji(rs, emoji).value);
    }
  }

  lemma Appended(rs: seq<Reaction>, users: Users, users': Users, me: string, r: Reaction)
    requires Represents(rs, users, me) && FindEmoji(rs, r.emoji).None? && EntryOk(r, users', me)
    requires forall other :: other != r.emoji ==> Of(users', other) == Of(users, other)
    ensures Represents(rs + [r], users', me)
  {
    var after := rs + [r];
    OthersOk(rs, users, users', me, r.emoji);
    forall emoji | Of(users', emoji) != {} ensures FindEmoji(after, emoji).Some? {
      Found(after, emoji, if emoji == r.emoji then |rs| else FindEmoji(rs, emoji).value);
    }
  }

  lemma Dropped(rs: seq<Reaction>, users: Users, users': Users, me: string, emoji: string)
    requires Represents(rs, users, me) && FindEmoji(rs, emoji).Some? && Of(users', emoji) == {}
    requires forall other :: other != emoji ==> Of(users', other) == Of(users, other)
    ensures Represents(Without(rs, FindEmoji(rs, emoji).value), users', me)
  {
    var i := FindEmoji(rs, emoji).value;
    var after := Without(rs, i);
    OthersOk(rs, users, users', me, emoji);
    forall k | 0 <= k < |after| ensures after[k].emoji != emoji && EntryOk(after[k], users', me) {
      assert after[k] == rs[if k < i then k else k + 1];
    }
    forall other | Of(users', other) != {} ensures FindEmoji(after, other).Some? {
      var j := FindEmoji(rs, other).value;
      Found(after, other, if j < i then j else j - 1);
    }
  }

  /** Who has reacted decides the entry: two lists for the same sets have the same entry for an emoji. */
  lemma EntryOf(rs: seq<Reaction>, users: Users, me: string, emoji: string)
    requires Represents(rs, users, me)
    ensures match FindEmoji(rs, emoji)
            case Some(i) =>
              rs[i] == Reaction(emoji, |Of(users, emoji)|, me in Of(users, emoji)) && Of(users, emoji) != {}
            case None => Of(users, emoji) == {}
  {
  }

  /** One user less. */
  lemma Fewer(s: set<string>, user: string)
    requires user in s
    ensures |s - {user}| == |s| - 1
  {
  }

  lemma AddKeeps(rs: seq<Reaction>, users: Users, me: string, emoji: string, user: string)
    requires Represents(rs, users, me) && user !in Of(users, emoji)
    ensures Represents(GatewayAdd(rs, emoji, user == me), Apply(users, Add(emoji, user)), me)
  {
    var before := Of(users, emoji);
    var entry := Reaction(emoji, |before| + 1, me in before || user == me);
    EntryOf(rs, users, me, emoji);
    if FindEmoji(rs, emoji).Some? {
      Replaced(rs, users, Apply(users, Add(emoji, user)), me, entry);
    } else {
      Appended(rs, users, Apply(users, Add(emoji, user)), me, entry);
    }
  }

  lemma RemoveKeeps(rs: seq<Reaction>, users: Users, me: string, emoji: string, user: string)
    requires Represents(rs, users, me) && user in Of(users, emoji)
    ensures Represents(GatewayRemove(rs, emoji, user == me), Apply(users, Remove(emoji, user)), me)
  {
    var before := Of(users, emoji);
    var users' := Apply(users, Remove(emoji, user));
    EntryOf(rs, users, me, emoji);
    Fewer(before, user);
    assert Of(users', emoji) == before - {user};
    if |before| <= 1 {
      Dropped(rs, users, users', me, emoji);
    } else {
      var entry := Reaction(emoji, |before| - 1, if user == me then false else me in before);
      assert EntryOk(entry, users', me);
      Replaced(rs, users, users', me, entry);
    }
  }

  lemma EffectiveKeeps(rs: seq<Reaction>, users: Users, me: string, e: Event)
    requires Represents(rs, users, me) && Effective(users, e)
    ensures Represents(Handle(rs, e, me), Apply(users, e), me)
  {
    match e
    case Add(emoji, user) => AddKeeps(rs, users, me, emoji, user);
    case Remove(emoji, user) => RemoveKeeps(rs, users, me, emoji, user);
  }

  lemma FindReplaced(rs: seq<Reaction>, r: Reaction)
    requires FindEmoji(rs, r.emoji).Some?
    ensures FindEmoji(rs[FindEmoji(rs, r.emoji).value := r], r.emoji) == FindEmoji(rs, r.emoji)
  {
    Found(rs[FindEmoji(rs, r.emoji).value := r], r.emoji, FindEmoji(rs, r.emoji).value);
  }

  lemma FindDropped(rs: seq<Reaction>, users: Users, me: string, emoji: string)
    requires Represents(rs, users, me) && FindEmoji(rs, emoji).Some?
    ensures FindEmoji(Without(rs, FindEmoji(rs, emoji).value), emoji).None?
  {
  }

  /** An event that the server's sets do not notice breaks the count, unless nobody had chosen the emoji. */
  lemma IneffectiveBreaks(rs: seq<Reaction>, users: Users, me: string, e: Event)
    requires Represents(rs, users, me) && !Effective(users, e) && !(e.Remove? && Of(users, e.emoji) == {})
    ensures !Represents(Handle(rs, e, me), Apply(users, e), me)
  {
    var users', after := Apply(users, e), Handle(rs, e, me);
    EntryOf(rs, users, me, e.emoji);
    assert Of(users', e.emoji) == Of(users, e.emoji);
    var i := FindEmoji(rs, e.emoji).value;
    if e.Remove? && rs[i].count <= 1 {
      FindDropped(rs, users, me, e.emoji);
    } else {
      FindReplaced(rs, after[i]);
    }
    if Represents(after, users', me) {
      EntryOf(after, users', me, e.emoji);
    }
  }

  /** The handlers refine the sets for exactly the events that change them, and for a removal where there is nothing
      to remove. */
  lemma HandleRefinesIff(rs: seq<Reaction>, users: Users, me: string, e: Event)
    requires Represents(rs, users, me)
    ensures Represents(Handle(rs, e, me), Apply(users, e), me)
            <==> (Effective(users, e) || (e.Remove? && Of(users, e.emoji) == {}))
  {
    if Effective(users, e) {
      EffectiveKeeps(rs, users, me, e);
    } else if e.Remove? && Of(users, e.emoji) == {} {
      EntryOf(rs, users, me, e.emoji);
      assert forall emoji :: Of(Apply(users, e), emoji) == Of(users, emoji);
      assert forall r :: EntryOk(r, users, me) ==> EntryOk(r, Apply(users, e), me);
    } else {
      IneffectiveBreaks(rs, users, me, e);
    }
  }

  // ---- Runs of gateway events ----

  function HandleAll(rs: seq<Reaction>, events: seq<Event>, me: string): seq<Reaction>
    decreases |events|
  {
    if events == [] then rs else HandleAll(Handle(rs, events[0], me), events[1..], me)
  }

  function ApplyAll(users: Users, events: seq<Event>): Users
    decreases |events|
  {
    if events == [] then users else ApplyAll(Apply(users, events[0]), events[1..])
  }

  predicate AllEffective(users: Users, events: seq<Event>)
    decreases |events|
  {
    events == [] || (Effective(users, events[0]) && AllEffective(Apply(users, events[0]), events[1..]))
  }

  /** After any run of events that each change the server's sets, the client shows exactly those sets. */
  lemma {:induction false} GatewayRefinesSets(rs: seq<Reaction>, users: Users, me: string, events: seq<Event>)
    requires Represents(rs, users, me) && AllEffective(users, events)
    ensures Represents(HandleAll(rs, events, me), ApplyAll(users, events), me)
    decreases |events|
  {
    if events != [] {
      EffectiveKeeps(rs, users, me, events[0]);
      GatewayRefinesSets(Handle(rs, events[0], me), Apply(users, events[0]), me, events[1..]);
    }
  }

  // ---- Optimistic updates ----

  /** Adding one's own reaction is idempotent, so it always agrees with the sets. */
  lemma OwnAddRefines(rs: seq<Reaction>, users: Users, me: string, emoji: string)
    requires Represents(rs, users, me)
    ensures Represents(OwnAdd(rs, emoji), Apply(users, Add(emoji, me)), me)
  {
    var e := Add(emoji, me);
    EntryOf(rs, users, me, emoji);
    if Effective(users, e) {
      EffectiveKeeps(rs, users, me, e);
      assert OwnAdd(rs, emoji) == Handle(rs, e, me);
    } else {
      assert Of(Apply(users, e), emoji) == Of(users, emoji);
      assert forall other :: Of(Apply(users, e), other) == Of(users, other);
      assert forall r :: EntryOk(r, users, me) ==> EntryOk(r, Apply(users, e), me);
    }
  }

  /** Removing does not look at `me`: it is right iff the user had reacted or nobody had. */
  lemma OwnRemoveRefinesIff(rs: seq<Reaction>, users: Users, me: string, emoji: string)
    requires Represents(rs, users, me)
    ensures Represents(OwnRemove(rs, emoji), Apply(users, Remove(emoji, me)), me)
            <==> (me in Of(users, emoji) || Of(users, emoji) == {})
  {
    HandleRefinesIff(rs, users, me, Remove(emoji, me));
    assert OwnRemove(rs, emoji) == Handle(rs, Remove(emoji, me), me);
  }

  /** The echo of an optimistic add is counted a second time, from every state in which the add did anything. */
  lemma EchoOfAddCountsTwice(rs: seq<Reaction>, users: Users, me: string, emoji: string)
    requires Represents(rs, users, me) && me !in Of(users, emoji)
    ensures var users' := Apply(users, Add(emoji, me));
            var after := GatewayAdd(OwnAdd(rs, emoji), emoji, true);
            && FindEmoji(after, emoji).Some?
            && after[FindEmoji(after, emoji).value].count == |Of(users', emoji)| + 1
            && !Represents(after, users', me)
  {
    var users' := Apply(users, Add(emoji, me));
    var mid := OwnAdd(rs, emoji);
    OwnAddRefines(rs, users, me, emoji);
    EntryOf(mid, users', me, emoji);
    assert me in Of(users', emoji);
    var after := GatewayAdd(mid, emoji, true);
    FindReplaced(mid, after[FindEmoji(mid, emoji).value]);
    if Represents(after, users', me) {
      EntryOf(after, users', me, emoji);
    }
  }

  /** The echo of an optimistic removal is harmless iff nobody else had chosen the emoji. */
  lemma EchoOfRemoveHarmlessIff(rs: seq<Reaction>, users: Users, me: string, emoji: string)
    requires Represents(rs, users, me) && me in Of(users, emoji)
    ensures Represents(GatewayRemove(OwnRemove(rs, emoji), emoji, true), Apply(users, Remove(emoji, me)), me)
            <==> Of(users, emoji) == {me}
  {
    var e := Remove(emoji, me);
    var users' := Apply(users, e);
    OwnRemoveRefinesIff(rs, users, me, emoji);
    HandleRefinesIff(OwnRemove(rs, emoji), users', me, e);
    assert Of(users', emoji) == Of(users, emoji) - {me};
    assert Of(users', emoji) - {me} == Of(users', emoji);
    assert Apply(users', e) == users';
    if Of(users', emoji) == {} {
      assert forall user :: user in Of(users, emoji) ==> user == me;
    }
  }

  /** The user counts and the user's own choice, of every emoji. */
  ghost predicate SameCounts(a: Users, b: Users, me: string) {
    forall emoji :: |Of(a, emoji)| == |Of(b, emoji)| && (me in Of(a, emoji) <==> me in Of(b, emoji))
  }

  /** A list says nothing more than that: it represents other sets iff they have the same sizes and the user is in the
      same ones. */
  lemma RepresentsBothIff(rs: seq<Reaction>, users: Users, users': Users, me: string)
    requires Represents(rs, users, me)
    ensures Represents(rs, users', me) <==> SameCounts(users, users', me)
  {
    if Represents(rs, users', me) {
      forall emoji
        ensures |Of(users, emoji)| == |Of(users', emoji)| && (me in Of(users, emoji) <==> me in Of(users', emoji))
      {
        EntryOf(rs, users, me, emoji);
        EntryOf(rs, users', me, emoji);
      }
    }
    if SameCounts(users, users', me) {
      forall emoji ensures Of(users', emoji) != {} <==> Of(users, emoji) != {} {
        assert |Of(users, emoji)| == |Of(users', emoji)|;
      }
    }
  }

  /** One for an addition of the emoji, by that user if one is named, minus one for such a removal. */
  function Change(e: Event, emoji: string, who: Option<string>): int {
    if e.emoji != emoji || (who.Some? && who.value != e.user) then 0 else if e.Add? then 1 else -1
  }

  /** Additions minus removals. */
  function Net(events: seq<Event>, emoji: string, who: Option<string>): int
    decreases |events|
  {
    if events == [] then 0 else Change(events[0], emoji, who) + Net(events[1..], emoji, who)
  }

  /** Of every emoji as many additions as removals, of all users and of this one. */
  ghost predicate Balanced(events: seq<Event>, me: string) {
    forall emoji :: Net(events, emoji, None) == 0 && Net(events, emoji, Some(me)) == 0
  }

  function Member(user: string, s: set<string>): int {
    if user in s then 1 else 0
  }

  lemma NetOfOne(users: Users, e: Event, emoji: string, me: string)
    requires Effective(users, e)
    ensures |Of(Apply(users, e), emoji)| == |Of(users, emoji)| + Change(e, emoji, None)
    ensures Member(me, Of(Apply(users, e), emoji)) == Member(me, Of(users, emoji)) + Change(e, emoji, Some(me))
  {
    if e.Remove? { Fewer(Of(users, e.emoji), e.user); }
  }

  /** Effective events move the size of each set, and the user's own choice, by additions minus removals. */
  lemma {:induction false} NetIs(users: Users, events: seq<Event>, emoji: string, me: string)
    requires AllEffective(users, events)
    ensures |Of(ApplyAll(users, events), emoji)| == |Of(users, emoji)| + Net(events, emoji, None)
    ensures Member(me, Of(ApplyAll(users, events), emoji))
            == Member(me, Of(users, emoji)) + Net(events, emoji, Some(me))
    decreases |events|
  {
    if events != [] {
      NetOfOne(users, events[0], emoji, me);
      NetIs(Apply(users, events[0]), events[1..], emoji, me);
    }
  }

  /** So an old list represents the sets after a run of effective events iff the run is balanced. */
  lemma OldListRepresentsIff(rs: seq<Reaction>, users: Users, events: seq<Event>, me: string)
    requires Represents(rs, users, me) && AllEffective(users, events)
    ensures Represents(rs, ApplyAll(users, events), me) <==> Balanced(events, me)
  {
    var now := ApplyAll(users, events);
    RepresentsBothIff(rs, users, now, me);
    forall emoji
      ensures |Of(now, emoji)| == |Of(users, emoji)| + Net(events, emoji, None)
      ensures Member(me, Of(now, emoji)) == Member(me, Of(users, emoji)) + Net(events, emoji, Some(me))
    {
      NetIs(users, events, emoji, me);
    }
    if SameCounts(users, now, me) {
      forall emoji ensures Net(events, emoji, None) == 0 && Net(events, emoji, Some(me)) == 0 {
        assert |Of(users, emoji)| == |Of(now, emoji)| && (me in Of(users, emoji) <==> me in Of(now, emoji));
      }
    }
    if Balanced(events, me) {
      forall emoji
        ensures |Of(users, emoji)| == |Of(now, emoji)| && (me in Of(users, emoji) <==> me in Of(now, emoji))
      {
        assert Net(events, emoji, None) == 0 && Net(events, emoji, Some(me)) == 0;
      }
    }
  }
}
