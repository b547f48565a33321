/** The cache of transactions seen: a map into a list kept by recency. */
module TxCache {

  type Key = int

  // ------------------------------------------- a bounded sequence of distinct keys

  function Drop(s: seq<Key>, k: Key): seq<Key> {
    if s == [] then []
    else if s[0] == k then Drop(s[1..], k)
    else [s[0]] + Drop(s[1..], k)
  }

  /** A key already there becomes the most recent; a new one may push out the least recent. */
  function Pushed(s: seq<Key>, size: int, k: Key): seq<Key> {
    if k in s then Drop(s, k) + [k]
    else if |s| >= size && s != [] then s[1..] + [k]
    else s + [k]
  }

  ghost predicate Distinct(s: seq<Key>) {
    forall i, j | 0 <= i < j < |s| :: s[i] != s[j]
  }

  lemma {:induction false} DropFacts(s: seq<Key>, k: Key)
    requires Distinct(s)
    ensures Distinct(Drop(s, k)) && |Drop(s, k)| == if k in s then |s| - 1 else |s|
    ensures forall x :: x in Drop(s, k) <==> x in s && x != k
  {
    if s != [] {
      DropFacts(s[1..], k);
      assert s[0] !in s[1..];
    }
  }

  /** The cache never outgrows its size, holds no key twice, ends with what was pushed, and
      loses at most the least recent key. */
  lemma PushedFacts(s: seq<Key>, size: int, k: Key)
    requires Distinct(s) && |s| <= size && size > 0
    ensures var r := Pushed(s, size, k);
      && Distinct(r) && 0 < |r| <= size && r[|r| - 1] == k
      && (forall x | x in r :: x == k || x in s)
      && (forall x | x in s && x !in r :: x == s[0] && |s| == size && k !in s)
  {
    DropFacts(s, k);
  }

  lemma {:induction false} DropAt(s: seq<Key>, i: nat)
    requires Distinct(s) && i < |s|
    ensures Drop(s, s[i]) == s[..i] + s[i + 1..]
  {
    if i == 0 {
      DropAbsent(s[1..], s[0]);
    } else {
      DropAt(s[1..], i - 1);
      assert s[1..][..i - 1] == s[1..i] && s[1..][i..] == s[i + 1..];
    }
  }

  lemma {:induction false} DropAbsent(s: seq<Key>, k: Key)
    requires k !in s
    ensures Drop(s, k) == s
  {
    if s != [] {
      DropAbsent(s[1..], k);
    }
  }

  // -------------------------------------------------------------------- mapTxCache

  /** An element of the linked list; the map holds elements, so they have an identity. */
  datatype Element = Element(id: nat, key: Key)

  function Keys(list: seq<Element>): (r: seq<Key>)
    ensures |r| == |list| && forall i | 0 <= i < |r| :: r[i] == list[i].key
  {
    seq(|list|, i requires 0 <= i < |list| => list[i].key)
  }

  ghost predicate Linked(list: seq<Element>, cacheMap: map<Key, Element>, nextId: nat) {
    && (forall i | 0 <= i < |list| ::
          list[i].id < nextId && list[i].key in cacheMap && cacheMap[list[i].key] == list[i])
    && (forall i, j | 0 <= i < j < |list| :: list[i].id != list[j].id)
    && (forall k | k in cacheMap :: cacheMap[k].key == k && cacheMap[k] in list)
  }

  lemma LinkedKeys(list: seq<Element>, cacheMap: map<Key, Element>, nextId: nat)
    requires Linked(list, cacheMap, nextId)
    ensures Distinct(Keys(list)) && forall k :: k in Keys(list) <==> k in cacheMap
  {
    forall i, j | 0 <= i < j < |list| ensures Keys(list)[i] != Keys(list)[j] {
      assert list[i].id != list[j].id;
    }
    forall k ensures k in Keys(list) <==> k in cacheMap {
      if k in cacheMap {
        var i :| 0 <= i < |list| && list[i] == cacheMap[k];
        assert Keys(list)[i] == k;
      }
    }
  }

  function Without(list: seq<Element>, i: nat): (rest: seq<Element>)
    requires i < |list|
    ensures |rest| == |list| - 1 && forall j | 0 <= j < |rest| :: rest[j] == list[if j < i then j else j + 1]
  {
    list[..i] + list[i + 1..]
  }

  /** Taking one element out of the list. */
  lemma RemoveLinked(list: seq<Element>, cacheMap: map<Key, Element>, nextId: nat, i: nat)
    requires Linked(list, cacheMap, nextId) && i < |list|
    ensures Linked(Without(list, i), cacheMap - {list[i].key}, nextId)
    ensures list[i] !in Without(list, i)
  {
    hide Without;
    var rest := Without(list, i);
    forall k | k in cacheMap - {list[i].key} ensures cacheMap[k] in rest {
      var j :| 0 <= j < |list| && list[j] == cacheMap[k];
      assert rest[if j < i then j else j - 1] == list[j];
    }
    forall j | 0 <= j < |rest| ensures rest[j].key != list[i].key && rest[j] != list[i] {
      assert cacheMap[rest[j].key] == rest[j];
    }
  }

  lemma RemoveKeys(list: seq<Element>, cacheMap: map<Key, Element>, nextId: nat, i: nat)
    requires Linked(list, cacheMap, nextId) && i < |list|
    ensures Keys(Without(list, i)) == Drop(Keys(list), list[i].key)
  {
    LinkedKeys(list, cacheMap, nextId);
    DropAt(Keys(list), i);
    assert Keys(Without(list, i)) == Keys(list)[..i] + Keys(list)[i + 1..];
  }

  /** Moving one element to the back. */
  lemma MoveLinked(list: seq<Element>, cacheMap: map<Key, Element>, nextId: nat, i: nat)
    requires Linked(list, cacheMap, nextId) && i < |list|
    ensures Linked(Without(list, i) + [list[i]], cacheMap, nextId)
    ensures Keys(Without(list, i) + [list[i]]) == Drop(Keys(list), list[i].key) + [list[i].key]
  {
    hide Drop, Without;
    RemoveLinked(list, cacheMap, nextId, i);
    RemoveKeys(list, cacheMap, nextId, i);
    var rest, e := Without(list, i), list[i];
    assert (cacheMap - {e.key})[e.key := e] == cacheMap;
    forall j | 0 <= j < |rest| ensures rest[j].id != e.id {
      assert rest[j] in rest;
    }
    AppendLinked(rest, cacheMap - {e.key}, nextId, e, nextId);
  }

  lemma AppendLinked(list: seq<Element>, cacheMap: map<Key, Element>, nextId: nat, e: Element, nextId': nat)
    requires Linked(list, cacheMap, nextId) && e.key !in cacheMap && e.id < nextId' && nextId <= nextId'
    requires forall i | 0 <= i < |list| :: list[i].id != e.id
    ensures Linked(list + [e], cacheMap[e.key := e], nextId') && Keys(list + [e]) == Keys(list) + [e.key]
  {
    LinkedKeys(list, cacheMap, nextId);
    forall i | 0 <= i < |list| ensures list[i].key != e.key {
      assert list[i].key in cacheMap;
    }
  }

  lemma ElementsListed(list: seq<Element>, cacheMap: map<Key, Element>, nextId: nat)
    requires Linked(list, cacheMap, nextId)
    ensures forall k | k in cacheMap :: cacheMap[k].key == k && cacheMap[k] in list
    ensures forall i | 0 <= i < |list| :: list[i].id != nextId
    ensures |Keys(list)| == |list| && forall i | 0 <= i < |list| :: Keys(list)[i] == list[i].key
  {
  }

  lemma PopFront(list: seq<Element>)
    requires list != []
    ensures Without(list, 0) == list[1..] && Keys(list[1..]) == Keys(list)[1..]
  {
    hide Keys;
    var a, b := Keys(list[1..]), Keys(list)[1..];
    assert |a| == |b| && forall i | 0 <= i < |a| :: a[i] == b[i];
  }

  class MapTxCache {
    const size: int
    var cacheMap: map<Key, Element>
    var list: seq<Element>
    var nextId: nat

    ghost predicate Valid() reads this {
      size > 0 && Linked(list, cacheMap, nextId) && |list| <= size
    }

    ghost function Contents(): seq<Key> reads this {
      Keys(list)
    }

    constructor(size: int)
      requires size > 0
      ensures Valid() && Contents() == [] && this.size == size
    {
      this.size := size;
      cacheMap, list, nextId := map[], [], 0;
    }

    method Reset()
      requires Valid()
      modifies this
      ensures Valid() && Contents() == []
    {
      cacheMap, list := map[], [];
    }

    method Push(k: Key) returns (added: bool)
      requires Valid()
      modifies this
      ensures Valid() && Contents() == Pushed(old(Contents()), size, k)
      ensures added == (k !in old(Contents()))
    {
      hide Linked, Drop, Keys, Distinct, Without;
      LinkedKeys(list, cacheMap, nextId);
      ElementsListed(list, cacheMap, nextId);
      if k in cacheMap {
        var i := IndexOf(cacheMap[k]);
        MoveLinked(list, cacheMap, nextId, i);
        list := Without(list, i) + [list[i]];
        return false;
      }
      if |list| >= size {
        RemoveLinked(list, cacheMap, nextId, 0);
        PopFront(list);
        cacheMap := cacheMap - {list[0].key};
        list := list[1..];
        ElementsListed(list, cacheMap, nextId);
      }
      var e := Element(nextId, k);
      AppendLinked(list, cacheMap, nextId, e, nextId + 1);
      list := list + [e];
      cacheMap := cacheMap[k := e];
      nextId := nextId + 1;
      added := true;
    }

    method Remove(k: Key)
      requires Valid()
      modifies this
      ensures Valid() && Contents() == Drop(old(Contents()), k)
    {
      LinkedKeys(list, cacheMap, nextId);
      if k in cacheMap {
        var i := IndexOf(cacheMap[k]);
        RemoveLinked(list, cacheMap, nextId, i);
        RemoveKeys(list, cacheMap, nextId, i);
        cacheMap := cacheMap - {k};
        list := Without(list, i);
      } else {
        DropAbsent(Keys(list), k);
      }
    }

    /** The place of an element in the list. */
    method IndexOf(e: Element) returns (i: nat)
      requires e in list
      ensures i < |list| && list[i] == e
    {
      i := 0;
      while list[i] != e
        invariant i < |list| && e in list[i..]
        decreases |list| - i
      {
        i := i + 1;
      }
    }
  }
}
