/**
 * Lists of value objects (src/list.rs). `push` grows a list in place; the
 * combinators build new lists and keep the element type name, even when
 * the mapper changes what the items are.
 */
module Lists {
  import opened Wrappers
  import opened Values

  /** A list as a value: its items and its element type's name. */
  datatype ListValue = ListValue(items: seq<ValueObject>, elementType: string)

  /** The items satisfying `p`, in their original order. */
  function FilterItems(items: seq<ValueObject>, p: ValueObject -> bool): (r: seq<ValueObject>)
    ensures |r| <= |items|
    ensures forall i :: 0 <= i < |r| ==> p(r[i])
    ensures forall x :: multiset(r)[x] == if p(x) then multiset(items)[x] else 0
    ensures IsSubsequence(r, items)
  {
    if items == [] then []
    else
      var rest := FilterItems(items[1..], p);
      assert items == [items[0]] + items[1..];
      if p(items[0]) then [items[0]] + rest else rest
  }

  /** `a` is `b` with some items left out, the rest in order. */
  predicate IsSubsequence(a: seq<ValueObject>, b: seq<ValueObject>)
  {
    if a == [] then true
    else if b == [] then false
    else if a[0] == b[0] then IsSubsequence(a[1..], b[1..])
    else IsSubsequence(a, b[1..])
  }

  function MapItems(items: seq<ValueObject>, f: ValueObject -> ValueObject): (r: seq<ValueObject>)
    ensures |r| == |items| && forall i :: 0 <= i < |items| ==> r[i] == f(items[i])
  {
    if items == [] then [] else [f(items[0])] + MapItems(items[1..], f)
  }

  /** The index of the first item satisfying `p`. */
  function FindIndex(items: seq<ValueObject>, p: ValueObject -> bool): (r: Option<nat>)
    ensures r.None? <==> forall i :: 0 <= i < |items| ==> !p(items[i])
    ensures r.Some? ==> r.value < |items| && p(items[r.value]) && forall j :: 0 <= j < r.value ==> !p(items[j])
  {
    if items == [] then None
    else if p(items[0]) then Some(0)
    else
      var rest := FindIndex(items[1..], p);
      assert forall i :: 1 <= i < |items| ==> items[i] == items[1..][i - 1];
      if rest.Some? then Some(rest.value + 1) else None
  }

  /** Pairwise equality of two item sequences of one length. */
  function ItemsEqual(a: seq<ValueObject>, b: seq<ValueObject>): (r: bool)
    requires |a| == |b|
    ensures r <==> a == b
  {
    if a == [] then true
    else if a[0] != b[0] then false
    else
      var rest := ItemsEqual(a[1..], b[1..]);
      assert a == [a[0]] + a[1..] && b == [b[0]] + b[1..];
      rest
  }

  /** `equals` between two lists: the same element type name, the same
      length and pairwise equal items. */
  function Equals(a: ListValue, b: ListValue): (r: bool)
    ensures r <==> a == b
  {
    a.elementType == b.elementType && |a.items| == |b.items| && ItemsEqual(a.items, b.items)
  }

  class List {
    var items: seq<ValueObject>
    var elementType: string

    /** `List::new`: an empty list of the given element type. */
    constructor(elementType: string)
      ensures items == [] && this.elementType == elementType
    {
      items := [];
      this.elementType := elementType;
    }

    constructor FromItems(items: seq<ValueObject>, elementType: string)
      ensures this.items == items && this.elementType == elementType
    {
      this.items := items;
      this.elementType := elementType;
    }

    function Value(): ListValue
      reads this
    {
      ListValue(items, elementType)
    }

    function Len(): (n: nat)
      reads this
      ensures n == |items|
    {
      |items|
    }

    function IsEmpty(): (r: bool)
      reads this
      ensures r <==> Len() == 0
    {
      items == []
    }

    /** Appends at the end; earlier items and the element type stay. */
    method Push(item: ValueObject)
      modifies this
      ensures items == old(items) + [item] && elementType == old(elementType)
    {
      items := items + [item];
    }

    function Get(index: nat): (r: Option<ValueObject>)
      reads this
      ensures r.Some? <==> index < |items|
      ensures r.Some? ==> r.value == items[index]
    {
      if index < |items| then Some(items[index]) else None
    }

    function Filter(p: ValueObject -> bool): (r: ListValue)
      reads this
      ensures r.elementType == elementType
      ensures IsSubsequence(r.items, items)
      ensures forall i :: 0 <= i < |r.items| ==> p(r.items[i])
      ensures forall x :: multiset(r.items)[x] == if p(x) then multiset(items)[x] else 0
    {
      ListValue(FilterItems(items, p), elementType)
    }

    function Map(f: ValueObject -> ValueObject): (r: ListValue)
      reads this
      ensures r.elementType == elementType
      ensures |r.items| == |items| && forall i :: 0 <= i < |items| ==> r.items[i] == f(items[i])
    {
      ListValue(MapItems(items, f), elementType)
    }

    function Find(p: ValueObject -> bool): (r: Option<ValueObject>)
      reads this
      ensures r.None? <==> forall i :: 0 <= i < |items| ==> !p(items[i])
      ensures r.Some? ==> exists i :: 0 <= i < |items| && r.value == items[i] && p(items[i]) &&
                                      forall j :: 0 <= j < i ==> !p(items[j])
    {
      var i := FindIndex(items, p);
      if i.Some? then Some(items[i.value]) else None
    }

    function Any(p: ValueObject -> bool): (r: bool)
      reads this
      ensures r <==> exists i :: 0 <= i < |items| && p(items[i])
      ensures items == [] ==> !r
    {
      FindIndex(items, p).Some?
    }

    function All(p: ValueObject -> bool): (r: bool)
      reads this
      ensures r <==> forall i :: 0 <= i < |items| ==> p(items[i])
      ensures items == [] ==> r
    {
      FindIndex(items, (x: ValueObject) => !p(x)).None?
    }
  }

  /** Filtering twice by the same predicate is filtering once. */
  lemma {:induction false} FilterIdempotent(items: seq<ValueObject>, p: ValueObject -> bool)
    ensures FilterItems(FilterItems(items, p), p) == FilterItems(items, p)
  {
    if items != [] {
      FilterIdempotent(items[1..], p);
      if p(items[0]) {
        var rest := FilterItems(items[1..], p);
        assert ([items[0]] + rest)[1..] == rest;
      }
    }
  }

  /** Filtering by a predicate every item satisfies keeps the list. */
  lemma {:induction false} FilterAllKeeps(items: seq<ValueObject>, p: ValueObject -> bool)
    requires forall i :: 0 <= i < |items| ==> p(items[i])
    ensures FilterItems(items, p) == items
  {
    if items != [] {
      assert forall i :: 0 <= i < |items[1..]| ==> items[1..][i] == items[i + 1];
      FilterAllKeeps(items[1..], p);
      assert items == [items[0]] + items[1..];
    }
  }
}
