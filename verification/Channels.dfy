/** Channels and their order by position: `.sort((a, b) => a.position - b.position)`, which is stable. */
module Channels {
  import opened Options

  /** The fields that the channel store and the channel groups look at.  `kind` is the source's `type`. */
  datatype Channel = Channel(
    id: string, guild: Option<string>, kind: Option<int>, channelType: Option<int>, position: int,
    parent: Option<string>, name: Option<string>, lastMessage: Option<string>)

  ghost predicate Sorted(cs: seq<Channel>) {
    forall i, j :: 0 <= i < j < |cs| ==> cs[i].position <= cs[j].position
  }

  /** Puts c before the first channel that does not come before it. */
  function Place(c: Channel, cs: seq<Channel>): (r: seq<Channel>)
    requires Sorted(cs)
    ensures Sorted(r) && multiset(r) == multiset(cs) + multiset{c}
    ensures r != [] && (r[0] == c || (cs != [] && r[0] == cs[0]))
  {
    if cs == [] || c.position <= cs[0].position then
      assert [c] + cs == [c] + cs[..];
      [c] + cs
    else
      assert cs == [cs[0]] + cs[1..];
      [cs[0]] + Place(c, cs[1..])
  }

  function SortByPosition(cs: seq<Channel>): (r: seq<Channel>)
    ensures Sorted(r) && multiset(r) == multiset(cs) && |r| == |cs|
  {
    if cs == [] then []
    else
      var r := Place(cs[0], SortByPosition(cs[1..]));
      assert cs == [cs[0]] + cs[1..];
      assert |multiset(r)| == |multiset(cs)|;
      r
  }

  /** The channels at one position, in order. */
  function AtPosition(cs: seq<Channel>, p: int): seq<Channel> {
    if cs == [] then []
    else (if cs[0].position == p then [cs[0]] else []) + AtPosition(cs[1..], p)
  }

  lemma AtFirst(c: Channel, cs: seq<Channel>, p: int)
    ensures AtPosition([c] + cs, p) == (if c.position == p then [c] else []) + AtPosition(cs, p)
  {
    assert ([c] + cs)[1..] == cs;
  }

  lemma {:induction false} PlaceStable(c: Channel, cs: seq<Channel>, p: int)
    requires Sorted(cs)
    ensures AtPosition(Place(c, cs), p) == (if c.position == p then [c] else []) + AtPosition(cs, p)
    decreases |cs|
  {
    if cs == [] || c.position <= cs[0].position {
      AtFirst(c, cs, p);
    } else {
      var rest := cs[1..];
      PlaceStable(c, rest, p);
      AtFirst(cs[0], Place(c, rest), p);
      AtFirst(cs[0], rest, p);
      assert cs == [cs[0]] + rest;
    }
  }

  /** Channels at the same position keep their order. */
  lemma {:induction false} Stable(cs: seq<Channel>, p: int)
    ensures AtPosition(SortByPosition(cs), p) == AtPosition(cs, p)
    decreases |cs|
  {
    if cs != [] {
      Stable(cs[1..], p);
      PlaceStable(cs[0], SortByPosition(cs[1..]), p);
    }
  }

  lemma {:induction false} AtOwn(cs: seq<Channel>, i: nat)
    requires i < |cs|
    ensures AtPosition(cs, cs[i].position) != []
    decreases i
  {
    if i > 0 {
      AtOwn(cs[1..], i - 1);
    }
  }

  lemma {:induction false} FromPosition(cs: seq<Channel>, p: int)
    requires AtPosition(cs, p) != []
    ensures exists i :: 0 <= i < |cs| && cs[i].position == p && cs[i] == AtPosition(cs, p)[0]
    decreases |cs|
  {
    if cs[0].position != p {
      FromPosition(cs[1..], p);
      var i :| 0 <= i < |cs[1..]| && cs[1..][i].position == p && cs[1..][i] == AtPosition(cs[1..], p)[0];
      assert cs[i + 1] == cs[1..][i];
    }
  }

  lemma SameFirst(a: seq<Channel>, b: seq<Channel>)
    requires Sorted(a) && Sorted(b) && a != [] && b != []
    requires forall p :: AtPosition(a, p) == AtPosition(b, p)
    ensures a[0] == b[0]
  {
    AtOwn(a, 0);
    AtOwn(b, 0);
    FromPosition(b, a[0].position);
    FromPosition(a, b[0].position);
    assert AtPosition(a, a[0].position)[0] == a[0];
    assert AtPosition(b, b[0].position)[0] == b[0];
  }

  ghost predicate SameAtEveryPosition(a: seq<Channel>, b: seq<Channel>) {
    forall p :: AtPosition(a, p) == AtPosition(b, p)
  }

  /** Order and stability leave no choice. */
  lemma {:induction false} SortedStableUnique(a: seq<Channel>, b: seq<Channel>)
    requires Sorted(a) && Sorted(b) && SameAtEveryPosition(a, b)
    ensures a == b
    decreases |a|
  {
    if a == [] {
      if b != [] {
        AtOwn(b, 0);
      }
    } else if b == [] {
      AtOwn(a, 0);
    } else {
      SameFirst(a, b);
      forall p ensures AtPosition(a[1..], p) == AtPosition(b[1..], p) {
        assert AtPosition(a, p) == AtPosition(b, p);
        var first := if a[0].position == p then [a[0]] else [];
        assert AtPosition(a, p)[|first|..] == AtPosition(a[1..], p);
        assert AtPosition(b, p)[|first|..] == AtPosition(b[1..], p);
      }
      SortedStableUnique(a[1..], b[1..]);
      assert a == [a[0]] + a[1..] && b == [b[0]] + b[1..];
    }
  }

  lemma SortKeepsPositions(cs: seq<Channel>)
    ensures SameAtEveryPosition(SortByPosition(cs), cs)
  {
    forall p ensures AtPosition(SortByPosition(cs), p) == AtPosition(cs, p) { Stable(cs, p); }
  }

  /** A sequence is the result of the sort iff it is sorted and keeps the order at every position. */
  lemma IsSortIff(cs: seq<Channel>, r: seq<Channel>)
    ensures r == SortByPosition(cs) <==> Sorted(r) && SameAtEveryPosition(r, cs)
  {
    SortKeepsPositions(cs);
    if Sorted(r) && SameAtEveryPosition(r, cs) {
      SortedStableUnique(r, SortByPosition(cs));
    }
  }

  // ---- Ids ----

  function Ids(cs: seq<Channel>): (r: multiset<string>) {
    if cs == [] then multiset{} else multiset{cs[0].id} + Ids(cs[1..])
  }

  ghost predicate Unique(cs: seq<Channel>) {
    forall i, j :: 0 <= i < j < |cs| ==> cs[i].id != cs[j].id
  }

  lemma IdsFirst(c: Channel, cs: seq<Channel>)
    ensures Ids([c] + cs) == multiset{c.id} + Ids(cs)
  {
    assert ([c] + cs)[1..] == cs;
  }

  lemma {:induction false} IdsPlace(c: Channel, cs: seq<Channel>)
    requires Sorted(cs)
    ensures Ids(Place(c, cs)) == Ids(cs) + multiset{c.id}
    decreases |cs|
  {
    if cs == [] || c.position <= cs[0].position {
      IdsFirst(c, cs);
    } else {
      IdsPlace(c, cs[1..]);
      IdsFirst(cs[0], Place(c, cs[1..]));
    }
  }

  lemma {:induction false} IdsSort(cs: seq<Channel>)
    ensures Ids(SortByPosition(cs)) == Ids(cs)
    decreases |cs|
  {
    if cs != [] {
      IdsSort(cs[1..]);
      IdsPlace(cs[0], SortByPosition(cs[1..]));
    }
  }

  lemma {:induction false} IdsAt(cs: seq<Channel>, id: string)
    ensures id in Ids(cs) <==> exists i :: 0 <= i < |cs| && cs[i].id == id
    decreases |cs|
  {
    if cs != [] {
      IdsAt(cs[1..], id);
      if exists i :: 0 <= i < |cs| && cs[i].id == id {
        var i :| 0 <= i < |cs| && cs[i].id == id;
        if i > 0 { assert cs[1..][i - 1].id == id; }
      }
      if id in Ids(cs[1..]) {
        var i :| 0 <= i < |cs[1..]| && cs[1..][i].id == id;
        assert cs[i + 1].id == id;
      }
    }
  }

  /** Ids are unique iff none is counted twice, so order does not matter. */
  lemma {:induction false} UniqueIff(cs: seq<Channel>)
    ensures Unique(cs) <==> forall id :: Ids(cs)[id] <= 1
    decreases |cs|
  {
    if cs != [] {
      var rest := cs[1..];
      UniqueIff(rest);
      IdsAt(rest, cs[0].id);
      if Unique(cs) {
        assert Unique(rest);
        assert cs[0].id !in Ids(rest);
      }
      if forall id :: Ids(cs)[id] <= 1 {
        forall id ensures Ids(rest)[id] <= 1 { assert Ids(rest)[id] <= Ids(cs)[id]; }
        assert Ids(cs)[cs[0].id] <= 1;
        forall i, j | 0 <= i < j < |cs| ensures cs[i].id != cs[j].id {
          if i > 0 { assert rest[i - 1].id != rest[j - 1].id; }
        }
      }
    }
  }
}
