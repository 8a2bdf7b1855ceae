/** `list.map((x) => x.id === id ? f(x) : x)`, as the stores use it. */
module Lists {
  function MapId<T>(s: seq<T>, idOf: T -> string, id: string, f: T -> T): (r: seq<T>)
    ensures |r| == |s|
    ensures forall i :: 0 <= i < |s| ==> r[i] == if idOf(s[i]) == id then f(s[i]) else s[i]
  {
    seq(|s|, i requires 0 <= i < |s| => if idOf(s[i]) == id then f(s[i]) else s[i])
  }
}
