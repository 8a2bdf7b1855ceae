/** client/src/lib/channelGroups.ts */
module ChannelGroups {
  import opened Options
  import opened Channels

  const VirtualTextId := "__virtual_text__"
  const VirtualVoiceId := "__virtual_voice__"
  const UncategorizedId := "__uncategorized__"

  datatype Group = Group(id: string, name: string, isReal: bool, position: int, channels: seq<Channel>)

  predicate IsCategory(c: Channel) { c.kind == Some(4) }

  predicate IsVoice(c: Channel) { !IsCategory(c) && (c.kind == Some(2) || c.channelType == Some(2)) }

  predicate IsText(c: Channel) { !IsCategory(c) && !IsVoice(c) }

  function Filter(cs: seq<Channel>, p: Channel -> bool): seq<Channel> {
    if cs == [] then []
    else
      var last := cs[|cs| - 1];
      Filter(cs[..|cs| - 1], p) + if p(last) then [last] else []
  }

  predicate HasId(cs: seq<Channel>, id: string) { exists i :: 0 <= i < |cs| && cs[i].id == id }

  /** The channel belongs to the category with this id. */
  predicate ChildOf(c: Channel, id: string) { !IsCategory(c) && c.parent == Some(id) }

  /** No category of the list is the channel's parent. */
  predicate Orphan(c: Channel, cats: seq<Channel>) {
    !IsCategory(c) && (c.parent.None? || !HasId(cats, c.parent.value))
  }

  function IsChildOf(id: string): Channel -> bool { c => ChildOf(c, id) }

  function IsOrphan(cats: seq<Channel>): Channel -> bool { c => Orphan(c, cats) }

  function NameOf(cat: Channel): string { if cat.name.Some? then cat.name.value else "Unknown" }

  /** The entry of the category map: a later category with the same id replaces an earlier one. */
  function Head(cats: seq<Channel>, id: string): Group
    requires HasId(cats, id)
  {
    var last := cats[|cats| - 1];
    if last.id == id then Group(id, NameOf(last), true, last.position, []) else Head(cats[..|cats| - 1], id)
  }

  function Children(channels: seq<Channel>, id: string): seq<Channel> {
    SortByPosition(Filter(channels, IsChildOf(id)))
  }

  /** The group of the i-th category. */
  function GroupFor(channels: seq<Channel>, cats: seq<Channel>, i: nat): Group
    requires i < |cats|
  {
    assert HasId(cats, cats[i].id);
    Head(cats, cats[i].id).(channels := Children(channels, cats[i].id))
  }

  /** One group for each of the first n categories. */
  function RealGroups(channels: seq<Channel>, cats: seq<Channel>, n: nat): (r: seq<Group>)
    requires n <= |cats|
    ensures |r| == n && forall i :: 0 <= i < n ==> r[i] == GroupFor(channels, cats, i)
  {
    seq(n, i requires 0 <= i < n => GroupFor(channels, cats, i))
  }

  function Uncategorized(cs: seq<Channel>): seq<Group> {
    if cs == [] then [] else [Group(UncategorizedId, "Uncategorized", false, -1, SortByPosition(cs))]
  }

  function TextGroup(cs: seq<Channel>): Group {
    Group(VirtualTextId, "Text Channels", false, 0, SortByPosition(cs))
  }

  function VoiceGroup(cs: seq<Channel>): Group {
    Group(VirtualVoiceId, "Voice Channels", false, 1, SortByPosition(cs))
  }

  function VirtualGroups(channels: seq<Channel>): seq<Group> {
    var text, voice := Filter(channels, IsText), Filter(channels, IsVoice);
    (if text == [] then [] else [TextGroup(text)]) + if voice == [] then [] else [VoiceGroup(voice)]
  }

  function SortedCategories(channels: seq<Channel>): seq<Channel> {
    SortByPosition(Filter(channels, IsCategory))
  }

  function Groups(channels: seq<Channel>): seq<Group> {
    var cats := SortedCategories(channels);
    if Filter(channels, IsCategory) == [] then VirtualGroups(channels)
    else Uncategorized(Filter(channels, IsOrphan(cats))) + RealGroups(channels, cats, |cats|)
  }

  // ---- The program ----

  /** The loop that deals the channels to text and voice. */
  method DealByType(channels: seq<Channel>) returns (text: seq<Channel>, voice: seq<Channel>)
    ensures text == Filter(channels, IsText) && voice == Filter(channels, IsVoice)
  {
    text, voice := [], [];
    for i := 0 to |channels|
      invariant text == Filter(channels[..i], IsText) && voice == Filter(channels[..i], IsVoice)
    {
      var c := channels[i];
      assert channels[..i + 1][..i] == channels[..i];
      if IsCategory(c) { continue; }
      if c.kind == Some(2) || c.channelType == Some(2) { voice := voice + [c]; } else { text := text + [c]; }
    }
    assert channels[..|channels|] == channels;
  }

  method BuildVirtualGroups(channels: seq<Channel>) returns (groups: seq<Group>)
    ensures groups == VirtualGroups(channels)
  {
    var text, voice := DealByType(channels);
    groups := [];
    if |text| > 0 { groups := groups + [TextGroup(text)]; }
    if |voice| > 0 { groups := groups + [VoiceGroup(voice)]; }
  }

  /** The map after the loop over the sorted categories. */
  method CategoryMap(cats: seq<Channel>) returns (catMap: map<string, Group>)
    ensures forall id :: id in catMap <==> HasId(cats, id)
    ensures forall id :: id in catMap ==> catMap[id] == Head(cats, id)
    ensures forall id :: id in catMap ==> catMap[id].id == id && catMap[id].channels == []
    ensures forall i :: 0 <= i < |cats| ==> cats[i].id in catMap
  {
    catMap := map[];
    for i := 0 to |cats|
      invariant forall id :: id in catMap <==> HasId(cats[..i], id)
      invariant forall id :: id in catMap ==> catMap[id] == Head(cats[..i], id)
    {
      ghost var before := catMap;
      catMap := catMap[cats[i].id := Group(cats[i].id, NameOf(cats[i]), true, cats[i].position, [])];
      assert cats[..i + 1][..i] == cats[..i];
      forall id ensures id in catMap <==> HasId(cats[..i + 1], id) {
        HasIdSnoc(cats[..i], cats[i], id);
        assert cats[..i + 1] == cats[..i] + [cats[i]];
      }
    }
    assert cats[..|cats|] == cats;
    AllHeads(cats);
  }

  lemma HasIdSnoc(cs: seq<Channel>, c: Channel, id: string)
    ensures HasId(cs + [c], id) <==> HasId(cs, id) || c.id == id
  {
    if c.id == id { assert (cs + [c])[|cs|].id == id; }
    if HasId(cs, id) {
      var i :| 0 <= i < |cs| && cs[i].id == id;
      assert (cs + [c])[i].id == id;
    }
  }

  /** The loop that deals the channels to their category or to the uncategorized ones. */
  method Deal(channels: seq<Channel>, cats: seq<Channel>, empty: map<string, Group>)
    returns (catMap: map<string, Group>, uncategorized: seq<Channel>)
    requires forall id :: id in empty <==> HasId(cats, id)
    requires forall id :: id in empty ==> empty[id].id == id && empty[id].channels == []
    ensures catMap.Keys == empty.Keys
    ensures forall id :: id in catMap ==>
              catMap[id] == empty[id].(channels := Filter(channels, IsChildOf(id)))
    ensures uncategorized == Filter(channels, IsOrphan(cats))
  {
    catMap, uncategorized := empty, [];
    for i := 0 to |channels|
      invariant catMap.Keys == empty.Keys
      invariant forall id :: id in catMap ==>
                  catMap[id] == empty[id].(channels := Filter(channels[..i], IsChildOf(id)))
      invariant uncategorized == Filter(channels[..i], IsOrphan(cats))
    {
      var c := channels[i];
      assert channels[..i + 1][..i] == channels[..i];
      if IsCategory(c) { continue; }
      if c.parent.Some? && c.parent.value in catMap {
        var group := catMap[c.parent.value];
        catMap := catMap[c.parent.value := group.(channels := group.channels + [c])];
      } else {
        uncategorized := uncategorized + [c];
      }
    }
    assert channels[..|channels|] == channels;
  }

  /** The loop that pushes the categories' groups in the order of their positions. */
  method Collect(cats: seq<Channel>, catMap: map<string, Group>) returns (groups: seq<Group>)
    requires forall i :: 0 <= i < |cats| ==> cats[i].id in catMap
    ensures |groups| == |cats|
    ensures forall i :: 0 <= i < |cats| ==>
              var g := catMap[cats[i].id]; groups[i] == g.(channels := SortByPosition(g.channels))
  {
    groups := [];
    for i := 0 to |cats|
      invariant |groups| == i
      invariant forall k :: 0 <= k < i ==>
                  var g := catMap[cats[k].id]; groups[k] == g.(channels := SortByPosition(g.channels))
    {
      var group := catMap[cats[i].id];
      groups := groups + [group.(channels := SortByPosition(group.channels))];
    }
  }

  method PushUncategorized(uncategorized: seq<Channel>) returns (groups: seq<Group>)
    ensures groups == Uncategorized(uncategorized)
  {
    groups := [];
    if |uncategorized| > 0 {
      groups := groups + [Group(UncategorizedId, "Uncategorized", false, -1, SortByPosition(uncategorized))];
    }
  }

  method BuildRealGroups(channels: seq<Channel>, categories: seq<Channel>) returns (groups: seq<Group>)
    ensures var cats := SortByPosition(categories);
            groups == Uncategorized(Filter(channels, IsOrphan(cats))) + RealGroups(channels, cats, |cats|)
  {
    var cats := SortByPosition(categories);
    var empty := CategoryMap(cats);
    var catMap, uncategorized := Deal(channels, cats, empty);
    groups := PushUncategorized(uncategorized);
    var grouped := Collect(cats, catMap);
    Collected(channels, cats, empty, catMap, grouped);
    groups := groups + grouped;
  }

  lemma Collected(channels: seq<Channel>, cats: seq<Channel>, empty: map<string, Group>, catMap: map<string, Group>,
                  grouped: seq<Group>)
    requires catMap.Keys == empty.Keys && forall i :: 0 <= i < |cats| ==> cats[i].id in empty
    requires forall id :: id in empty ==> HasId(cats, id) && empty[id] == Head(cats, id)
    requires forall id :: id in catMap ==>
               catMap[id] == empty[id].(channels := Filter(channels, IsChildOf(id)))
    requires |grouped| == |cats|
    requires forall i :: 0 <= i < |cats| ==>
               var g := catMap[cats[i].id]; grouped[i] == g.(channels := SortByPosition(g.channels))
    ensures grouped == RealGroups(channels, cats, |cats|)
  {
    forall i | 0 <= i < |cats| ensures grouped[i] == GroupFor(channels, cats, i) {
      var id := cats[i].id;
      assert catMap[id] == Head(cats, id).(channels := Filter(channels, IsChildOf(id)));
    }
  }

  lemma AllHeads(cats: seq<Channel>)
    ensures forall id :: HasId(cats, id) ==> Head(cats, id).id == id && Head(cats, id).channels == []
    ensures forall i :: 0 <= i < |cats| ==> HasId(cats, cats[i].id)
  {
    forall id | HasId(cats, id) ensures Head(cats, id).id == id && Head(cats, id).channels == [] {
      HeadIs(cats, id);
    }
  }

  lemma {:induction false} HeadIs(cats: seq<Channel>, id: string)
    requires HasId(cats, id)
    ensures Head(cats, id).id == id && Head(cats, id).channels == [] && Head(cats, id).isReal
    decreases |cats|
  {
    if cats[|cats| - 1].id != id {
      HeadIs(cats[..|cats| - 1], id);
    }
  }

  method BuildChannelGroups(channels: seq<Channel>) returns (groups: seq<Group>)
    ensures groups == Groups(channels)
  {
    var categories := Filter(channels, IsCategory);
    if |categories| == 0 {
      groups := BuildVirtualGroups(channels);
    } else {
      groups := BuildRealGroups(channels, categories);
    }
  }

  // ---- The groups partition the channels ----

  /** The channels of all groups, with how often each appears. */
  function Members(groups: seq<Group>): multiset<Channel> {
    if groups == [] then multiset{}
    else Members(groups[..|groups| - 1]) + multiset(groups[|groups| - 1].channels)
  }

  lemma {:induction false} MembersSplit(a: seq<Group>, b: seq<Group>)
    ensures Members(a + b) == Members(a) + Members(b)
    decreases |b|
  {
    if b == [] {
      assert a + b == a;
    } else {
      assert (a + b)[..|a + b| - 1] == a + b[..|b| - 1];
      MembersSplit(a, b[..|b| - 1]);
    }
  }

  /** How often x passes p in the list. */
  lemma {:induction false} FilterCount(cs: seq<Channel>, p: Channel -> bool, x: Channel)
    ensures multiset(Filter(cs, p))[x] == if p(x) then multiset(cs)[x] else 0
    decreases |cs|
  {
    if cs != [] {
      var init, last := cs[..|cs| - 1], cs[|cs| - 1];
      FilterCount(init, p, x);
      assert cs == init + [last];
    }
  }

  /** One of the first n categories is the channel's parent. */
  predicate HasParent(x: Channel, cats: seq<Channel>, n: nat)
    requires n <= |cats|
  {
    !IsCategory(x) && x.parent.Some? && HasId(cats[..n], x.parent.value)
  }

  lemma ParentSnoc(x: Channel, cats: seq<Channel>, n: nat)
    requires 0 < n <= |cats| && Unique(cats)
    ensures HasParent(x, cats, n) <==> HasParent(x, cats, n - 1) || ChildOf(x, cats[n - 1].id)
    ensures !(HasParent(x, cats, n - 1) && ChildOf(x, cats[n - 1].id))
  {
    assert cats[..n] == cats[..n - 1] + [cats[n - 1]];
    if x.parent.Some? {
      HasIdSnoc(cats[..n - 1], cats[n - 1], x.parent.value);
    }
  }

  /** What the group of a category holds. */
  lemma GroupForHolds(channels: seq<Channel>, cats: seq<Channel>, i: nat)
    requires i < |cats|
    ensures var g := GroupFor(channels, cats, i);
            g.id == cats[i].id && g.isReal && g.channels == Children(channels, cats[i].id)
  {
    assert HasId(cats, cats[i].id);
    HeadIs(cats, cats[i].id);
  }

  lemma ChildrenCount(channels: seq<Channel>, id: string, x: Channel)
    ensures multiset(Children(channels, id))[x] == if ChildOf(x, id) then multiset(channels)[x] else 0
  {
    FilterCount(channels, IsChildOf(id), x);
  }

  lemma {:induction false} RealMembers(channels: seq<Channel>, cats: seq<Channel>, n: nat, x: Channel)
    requires n <= |cats| && Unique(cats)
    ensures Members(RealGroups(channels, cats, n))[x] == if HasParent(x, cats, n) then multiset(channels)[x] else 0
  {
    if n > 0 {
      RealMembers(channels, cats, n - 1, x);
      OneMore(channels, cats, n, x);
      ParentSnoc(x, cats, n);
    }
  }

  lemma OneMore(channels: seq<Channel>, cats: seq<Channel>, n: nat, x: Channel)
    requires 0 < n <= |cats|
    ensures Members(RealGroups(channels, cats, n))[x] ==
            Members(RealGroups(channels, cats, n - 1))[x]
            + if ChildOf(x, cats[n - 1].id) then multiset(channels)[x] else 0
  {
    var last := GroupFor(channels, cats, n - 1);
    GroupForHolds(channels, cats, n - 1);
    ChildrenCount(channels, cats[n - 1].id, x);
    MembersSnoc(RealGroups(channels, cats, n - 1), last, x);
    RealSnoc(channels, cats, n);
  }

  lemma RealSnoc(channels: seq<Channel>, cats: seq<Channel>, n: nat)
    requires 0 < n <= |cats|
    ensures RealGroups(channels, cats, n) == RealGroups(channels, cats, n - 1) + [GroupFor(channels, cats, n - 1)]
  {
  }

  lemma MembersSnoc(groups: seq<Group>, g: Group, x: Channel)
    ensures Members(groups + [g])[x] == Members(groups)[x] + multiset(g.channels)[x]
  {
    assert (groups + [g])[..|groups|] == groups;
  }

  lemma CategoriesUnique(channels: seq<Channel>)
    requires Unique(channels)
    ensures Unique(SortedCategories(channels))
  {
    FilterUnique(channels, IsCategory);
    IdsSort(Filter(channels, IsCategory));
    UniqueIff(Filter(channels, IsCategory));
    UniqueIff(SortedCategories(channels));
  }

  lemma {:induction false} FilterFrom(cs: seq<Channel>, p: Channel -> bool, c: Channel)
    ensures c in Filter(cs, p) <==> c in cs && p(c)
    decreases |cs|
  {
    if cs != [] {
      FilterFrom(cs[..|cs| - 1], p, c);
      assert cs == cs[..|cs| - 1] + [cs[|cs| - 1]];
    }
  }

  lemma {:induction false} FilterUnique(cs: seq<Channel>, p: Channel -> bool)
    requires Unique(cs)
    ensures Unique(Filter(cs, p))
    decreases |cs|
  {
    if cs != [] {
      var init, last := cs[..|cs| - 1], cs[|cs| - 1];
      FilterUnique(init, p);
      var kept := Filter(init, p);
      forall i | 0 <= i < |kept| ensures kept[i].id != last.id {
        FilterFrom(init, p, kept[i]);
        var j :| 0 <= j < |init| && init[j] == kept[i];
        assert cs[j].id != cs[|cs| - 1].id;
      }
    }
  }

  lemma OneHome(x: Channel, cats: seq<Channel>)
    ensures Orphan(x, cats) <==> !IsCategory(x) && !HasParent(x, cats, |cats|)
  {
    assert cats[..|cats|] == cats;
  }

  lemma OrphanMembers(channels: seq<Channel>, cats: seq<Channel>, x: Channel)
    ensures Members(Uncategorized(Filter(channels, IsOrphan(cats))))[x]
            == if Orphan(x, cats) then multiset(channels)[x] else 0
  {
    FilterCount(channels, IsOrphan(cats), x);
    UncategorizedMembers(Filter(channels, IsOrphan(cats)));
  }

  lemma CategorizedMembers(channels: seq<Channel>, x: Channel)
    requires Unique(channels) && Filter(channels, IsCategory) != []
    ensures Members(Groups(channels))[x] == if IsCategory(x) then 0 else multiset(channels)[x]
  {
    var cats := SortedCategories(channels);
    CategoriesUnique(channels);
    OneHome(x, cats);
    RealMembers(channels, cats, |cats|, x);
    OrphanMembers(channels, cats, x);
    MembersSplit(Uncategorized(Filter(channels, IsOrphan(cats))), RealGroups(channels, cats, |cats|));
  }

  /** With unique ids every channel that is not a category is in exactly one group, as often as in the list, and no
      category is in any. */
  lemma GroupsPartition(channels: seq<Channel>, x: Channel)
    requires Unique(channels)
    ensures Members(Groups(channels))[x] == if x.kind == Some(4) then 0 else multiset(channels)[x]
  {
    if Filter(channels, IsCategory) == [] {
      VirtualMembers(channels, x);
    } else {
      CategorizedMembers(channels, x);
    }
  }

  lemma OneGroup(g: Group)
    ensures Members([g]) == multiset(g.channels)
  {
    assert [g][..0] == [];
  }

  lemma UncategorizedMembers(cs: seq<Channel>)
    ensures Members(Uncategorized(cs)) == multiset(cs)
  {
    if cs != [] {
      OneGroup(Uncategorized(cs)[0]);
    }
  }

  lemma VirtualMembers(channels: seq<Channel>, x: Channel)
    ensures Members(VirtualGroups(channels))[x] == if IsCategory(x) then 0 else multiset(channels)[x]
  {
    var text, voice := Filter(channels, IsText), Filter(channels, IsVoice);
    FilterCount(channels, IsText, x);
    FilterCount(channels, IsVoice, x);
    var a := if text == [] then [] else [TextGroup(text)];
    var b := if voice == [] then [] else [VoiceGroup(voice)];
    if a != [] { OneGroup(a[0]); }
    if b != [] { OneGroup(b[0]); }
    MembersSplit(a, b);
  }

  /** Where the k-th group comes from. */
  lemma GroupAt(channels: seq<Channel>, k: nat)
    requires Filter(channels, IsCategory) != [] && k < |Groups(channels)|
    ensures var cats := SortedCategories(channels);
            var front := Uncategorized(Filter(channels, IsOrphan(cats)));
            if k < |front| then Groups(channels)[k] == front[0] && !front[0].isReal
            else var i := k - |front|; i < |cats| && Groups(channels)[k] == GroupFor(channels, cats, i)
  {
  }

  lemma SortedMembers(cs: seq<Channel>, x: Channel)
    ensures x in SortByPosition(cs) <==> x in cs
  {
    assert x in SortByPosition(cs) <==> x in multiset(SortByPosition(cs));
  }

  /** A channel of kind 4 with this id is in the list. */
  ghost predicate CategoryIn(channels: seq<Channel>, id: string) {
    exists c :: c in channels && c.kind == Some(4) && c.id == id
  }

  /** No channel of kind 4 is the channel's parent. */
  ghost predicate Homeless(channels: seq<Channel>, x: Channel) {
    x.kind != Some(4) && (x.parent.None? || !CategoryIn(channels, x.parent.value))
  }

  lemma CategoryInIff(channels: seq<Channel>, id: string)
    ensures HasId(SortedCategories(channels), id) <==> CategoryIn(channels, id)
  {
    var cats := SortedCategories(channels);
    if HasId(cats, id) {
      var i :| 0 <= i < |cats| && cats[i].id == id;
      FilteredMembers(channels, IsCategory, cats[i]);
    }
    if CategoryIn(channels, id) {
      var c :| c in channels && c.kind == Some(4) && c.id == id;
      FilteredMembers(channels, IsCategory, c);
      var i :| 0 <= i < |cats| && cats[i] == c;
    }
  }

  lemma HomelessIff(channels: seq<Channel>, x: Channel)
    ensures Orphan(x, SortedCategories(channels)) <==> Homeless(channels, x)
  {
    if x.parent.Some? { CategoryInIff(channels, x.parent.value); }
  }

  lemma AnyCategory(channels: seq<Channel>)
    ensures Filter(channels, IsCategory) == [] <==> forall c :: c in channels ==> c.kind != Some(4)
  {
    var cats := Filter(channels, IsCategory);
    if cats != [] { FilterFrom(channels, IsCategory, cats[0]); }
    forall c | c in channels && c.kind == Some(4) ensures cats != [] { FilterFrom(channels, IsCategory, c); }
  }

  /** In a guild with channels of kind 4 a real group holds exactly the channels whose parent it is, and any other group
      exactly those whose parent is no such channel. */
  lemma HomeIff(channels: seq<Channel>, k: nat, x: Channel)
    requires (exists c :: c in channels && c.kind == Some(4)) && k < |Groups(channels)|
    ensures var g := Groups(channels)[k];
            x in g.channels <==>
              x in channels && if g.isReal then x.kind != Some(4) && x.parent == Some(g.id) else Homeless(channels, x)
  {
    AnyCategory(channels);
    HomelessIff(channels, x);
    GroupHolds(channels, k, x);
  }

  lemma GroupHolds(channels: seq<Channel>, k: nat, x: Channel)
    requires Filter(channels, IsCategory) != [] && k < |Groups(channels)|
    ensures var g := Groups(channels)[k];
            x in g.channels <==>
              x in channels && if g.isReal then ChildOf(x, g.id) else Orphan(x, SortedCategories(channels))
  {
    var cats := SortedCategories(channels);
    var orphans := Filter(channels, IsOrphan(cats));
    GroupAt(channels, k);
    if k < |Uncategorized(orphans)| {
      SortedMembers(orphans, x);
      FilterFrom(channels, IsOrphan(cats), x);
    } else {
      var i := k - |Uncategorized(orphans)|;
      GroupForHolds(channels, cats, i);
      SortedMembers(Filter(channels, IsChildOf(cats[i].id)), x);
      FilterFrom(channels, IsChildOf(cats[i].id), x);
    }
  }

  lemma PartsSorted(channels: seq<Channel>, cats: seq<Channel>, i: nat)
    requires i < |cats|
    ensures Sorted(GroupFor(channels, cats, i).channels)
  {
    GroupForHolds(channels, cats, i);
  }

  lemma UncategorizedSorted(cs: seq<Channel>)
    ensures forall g :: g in Uncategorized(cs) ==> Sorted(g.channels)
  {
  }

  lemma VirtualSorted(channels: seq<Channel>)
    ensures forall g :: g in VirtualGroups(channels) ==> Sorted(g.channels)
  {
  }

  /** The channels of every group are sorted by position. */
  lemma GroupsSorted(channels: seq<Channel>, k: nat)
    requires k < |Groups(channels)|
    ensures Sorted(Groups(channels)[k].channels)
  {
    var cats := SortedCategories(channels);
    var front := Uncategorized(Filter(channels, IsOrphan(cats)));
    if Filter(channels, IsCategory) == [] {
      VirtualSorted(channels);
    } else {
      GroupAt(channels, k);
      if k < |front| {
        UncategorizedSorted(Filter(channels, IsOrphan(cats)));
      } else {
        PartsSorted(channels, cats, k - |front|);
      }
    }
  }

  lemma {:induction false} HeadOfUnique(cats: seq<Channel>, i: nat)
    requires i < |cats| && Unique(cats) && HasId(cats, cats[i].id)
    ensures Head(cats, cats[i].id) == Group(cats[i].id, NameOf(cats[i]), true, cats[i].position, [])
    decreases |cats|
  {
    if i < |cats| - 1 {
      assert cats[|cats| - 1].id != cats[i].id;
      assert cats[..|cats| - 1][i].id == cats[i].id;
      HeadOfUnique(cats[..|cats| - 1], i);
    }
  }

  lemma CategoryGroup(channels: seq<Channel>, cats: seq<Channel>, i: nat)
    requires i < |cats| && Unique(cats)
    ensures GroupFor(channels, cats, i)
            == Group(cats[i].id, NameOf(cats[i]), true, cats[i].position, Children(channels, cats[i].id))
  {
    assert HasId(cats, cats[i].id);
    HeadOfUnique(cats, i);
  }

  /** What precedes the categories' groups. */
  function Front(channels: seq<Channel>): seq<Group> {
    Uncategorized(Filter(channels, IsOrphan(SortedCategories(channels))))
  }

  lemma FrontIs(channels: seq<Channel>)
    ensures var front := Front(channels);
            if exists c :: c in channels && Homeless(channels, c)
            then |front| == 1 && front[0].id == "__uncategorized__" && front[0].name == "Uncategorized"
                 && !front[0].isReal && front[0].position == -1
            else front == []
  {
    AnyOrphan(channels, SortedCategories(channels));
    forall c ensures Orphan(c, SortedCategories(channels)) <==> Homeless(channels, c) { HomelessIff(channels, c); }
  }

  /** The uncategorized channels come first, if there are any; then one group for each category, empty or not, in the
      stable order of the categories' positions. */
  lemma GroupsFollowCategories(channels: seq<Channel>, i: nat)
    requires Unique(channels) && i < |SortedCategories(channels)|
    ensures var cats, front, groups := SortedCategories(channels), Front(channels), Groups(channels);
            && |groups| == |front| + |cats| && front <= groups
            && groups[|front| + i] == Group(cats[i].id, if cats[i].name.Some? then cats[i].name.value else "Unknown",
                                            true, cats[i].position, Children(channels, cats[i].id))
  {
    CategoryGroupOf(channels, i);
    GroupsParts(channels, i);
  }

  lemma CategoryGroupOf(channels: seq<Channel>, i: nat)
    requires Unique(channels) && i < |SortedCategories(channels)|
    ensures var cats := SortedCategories(channels);
            GroupFor(channels, cats, i)
            == Group(cats[i].id, NameOf(cats[i]), true, cats[i].position, Children(channels, cats[i].id))
  {
    CategoriesUnique(channels);
    CategoryGroup(channels, SortedCategories(channels), i);
  }

  lemma GroupsParts(channels: seq<Channel>, i: nat)
    requires i < |SortedCategories(channels)|
    ensures var cats, front, groups := SortedCategories(channels), Front(channels), Groups(channels);
            |groups| == |front| + |cats| && front <= groups && groups[|front| + i] == GroupFor(channels, cats, i)
  {
    var cats := SortedCategories(channels);
    assert Groups(channels) == Front(channels) + RealGroups(channels, cats, |cats|);
    Joined(Front(channels), RealGroups(channels, cats, |cats|), i);
  }

  lemma Joined<T>(a: seq<T>, b: seq<T>, i: nat)
    requires i < |b|
    ensures a <= a + b && (a + b)[|a| + i] == b[i]
  {
  }

  lemma AnyOrphan(channels: seq<Channel>, cats: seq<Channel>)
    ensures Filter(channels, IsOrphan(cats)) == [] <==> !exists c :: c in channels && Orphan(c, cats)
  {
    var orphans := Filter(channels, IsOrphan(cats));
    if orphans != [] { FilterFrom(channels, IsOrphan(cats), orphans[0]); }
    forall c | c in channels && Orphan(c, cats) ensures orphans != [] {
      FilterFrom(channels, IsOrphan(cats), c);
    }
  }

  lemma FilteredMembers(channels: seq<Channel>, p: Channel -> bool, x: Channel)
    ensures x in SortByPosition(Filter(channels, p)) <==> x in channels && p(x)
  {
    FilterFrom(channels, p, x);
    SortedMembers(Filter(channels, p), x);
  }

  /** A group that holds exactly the channels that pass the test. */
  ghost predicate Holds(g: Group, id: string, channels: seq<Channel>, p: Channel -> bool, x: Channel) {
    g.id == id && !g.isReal && (x in g.channels <==> x in channels && p(x))
  }

  predicate Speaks(x: Channel) { x.kind == Some(2) || x.channelType == Some(2) }

  /** Without channels of kind 4 the voice channels, which are of kind 2 by one field or the other, and the others have
      a group each, when there are any. */
  lemma VirtualHomeIff(channels: seq<Channel>, k: nat, x: Channel)
    requires (forall c :: c in channels ==> c.kind != Some(4)) && k < |Groups(channels)|
    ensures var g := Groups(channels)[k];
            && !g.isReal && (x in g.channels <==> x in channels && (Speaks(x) <==> g.id == "__virtual_voice__"))
            && (g.id == "__virtual_text__" || g.id == "__virtual_voice__")
  {
    AnyCategory(channels);
    TextHome(channels, x);
    VoiceHome(channels, x);
    VirtualAt(channels, k);
  }

  lemma VirtualAt(channels: seq<Channel>, k: nat)
    requires Filter(channels, IsCategory) == [] && k < |Groups(channels)|
    ensures || Groups(channels)[k] == TextGroup(Filter(channels, IsText))
            || Groups(channels)[k] == VoiceGroup(Filter(channels, IsVoice))
  {
  }

  lemma TextHome(channels: seq<Channel>, x: Channel)
    requires forall c :: c in channels ==> c.kind != Some(4)
    ensures x in TextGroup(Filter(channels, IsText)).channels <==> x in channels && !Speaks(x)
  {
    TextHolds(channels, x);
  }

  lemma VoiceHome(channels: seq<Channel>, x: Channel)
    requires forall c :: c in channels ==> c.kind != Some(4)
    ensures x in VoiceGroup(Filter(channels, IsVoice)).channels <==> x in channels && Speaks(x)
  {
    VoiceHolds(channels, x);
  }

  lemma AnyOf(channels: seq<Channel>, p: Channel -> bool)
    ensures Filter(channels, p) == [] <==> forall c :: c in channels ==> !p(c)
  {
    var kept := Filter(channels, p);
    if kept != [] { FilterFrom(channels, p, kept[0]); }
    forall c | c in channels && p(c) ensures kept != [] { FilterFrom(channels, p, c); }
  }

  /** The text group comes first and the voice group after it, each iff it has a channel. */
  lemma VirtualGroupsAre(channels: seq<Channel>)
    requires forall c :: c in channels ==> c.kind != Some(4)
    ensures var groups := Groups(channels);
            var text := exists c :: c in channels && !Speaks(c);
            var voice := exists c :: c in channels && Speaks(c);
            && |groups| == (if text then 1 else 0) + (if voice then 1 else 0)
            && (text ==> (groups[0].id, groups[0].name, groups[0].position) == ("__virtual_text__", "Text Channels", 0))
            && (voice ==> var last := groups[|groups| - 1];
                          (last.id, last.name, last.position) == ("__virtual_voice__", "Voice Channels", 1))
  {
    AnyCategory(channels);
    AnyOf(channels, IsText);
    AnyOf(channels, IsVoice);
  }

  lemma TextHolds(channels: seq<Channel>, x: Channel)
    ensures Holds(TextGroup(Filter(channels, IsText)), VirtualTextId, channels, IsText, x)
  {
    FilteredMembers(channels, IsText, x);
  }

  lemma VoiceHolds(channels: seq<Channel>, x: Channel)
    ensures Holds(VoiceGroup(Filter(channels, IsVoice)), VirtualVoiceId, channels, IsVoice, x)
  {
    FilteredMembers(channels, IsVoice, x);
  }
}
