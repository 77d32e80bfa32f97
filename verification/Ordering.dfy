/** The deterministic member order: by time, then by names, character by character. */
module Ordering {

  function TextLess(a: string, b: string): bool {
    if b == "" then false
    else if a == "" then true
    else if a[0] != b[0] then a[0] < b[0]
    else TextLess(a[1..], b[1..])
  }

  lemma {:induction false} TextTotal(a: string, b: string)
    ensures a == b || TextLess(a, b) || TextLess(b, a)
    ensures !(TextLess(a, b) && TextLess(b, a))
    ensures !TextLess(a, a)
  {
    if a != "" && b != "" {
      TextTotal(a[1..], b[1..]);
      TextTotal(a[1..], a[1..]);
      assert a == [a[0]] + a[1..] && b == [b[0]] + b[1..];
    } else if a != "" {
      TextTotal(a[1..], a[1..]);
    }
  }

  lemma {:induction false} TextTransitive(a: string, b: string, c: string)
    requires TextLess(a, b) && TextLess(b, c)
    ensures TextLess(a, c)
  {
    if a != "" && a[0] == b[0] == c[0] {
      TextTransitive(a[1..], b[1..], c[1..]);
    }
  }

  /** A sort key: a timestamp and two names that break ties. */
  datatype Key = Key(time: nat, first: string, second: string)

  predicate Before(a: Key, b: Key) {
    || a.time < b.time
    || (a.time == b.time && TextLess(a.first, b.first))
    || (a.time == b.time && a.first == b.first && TextLess(a.second, b.second))
  }

  lemma {:induction false} BeforeTotal(a: Key, b: Key)
    ensures a == b || Before(a, b) || Before(b, a)
    ensures !(Before(a, b) && Before(b, a))
    ensures !Before(a, a)
  {
    TextTotal(a.first, b.first);
    TextTotal(a.second, b.second);
    TextTotal(a.first, a.first);
    TextTotal(a.second, a.second);
  }

  lemma {:induction false} BeforeTransitive(a: Key, b: Key, c: Key)
    requires Before(a, b) && Before(b, c)
    ensures Before(a, c)
  {
    if a.time == b.time == c.time {
      if TextLess(a.first, b.first) && TextLess(b.first, c.first) {
        TextTransitive(a.first, b.first, c.first);
      } else if a.first == b.first == c.first {
        TextTransitive(a.second, b.second, c.second);
      }
    }
  }

  ghost predicate Ascending(s: seq<Key>) {
    forall i, j :: 0 <= i < j < |s| ==> Before(s[i], s[j])
  }

  lemma {:induction false} AscendingIsDistinct(s: seq<Key>, i: nat, j: nat)
    requires Ascending(s) && i < |s| && j < |s| && s[i] == s[j]
    ensures i == j
  {
    BeforeTotal(s[i], s[j]);
  }

  /** `s` lists exactly `keys`, in order. */
  ghost predicate Sorts(s: seq<Key>, keys: set<Key>) {
    Ascending(s) && forall k :: k in s <==> k in keys
  }

  lemma {:induction false} SortedHead(s: seq<Key>, keys: set<Key>)
    requires Sorts(s, keys) && s != []
    ensures Sorts(s[1..], keys - {s[0]})
    ensures forall k :: k in keys && k != s[0] ==> Before(s[0], k)
  {
    forall k | k in s[1..]
      ensures k != s[0] && Before(s[0], k)
    {
      var i :| 0 <= i < |s[1..]| && s[1..][i] == k;
      assert Before(s[0], s[i + 1]);
      BeforeTotal(s[0], s[0]);
    }
    forall k | k in keys && k != s[0]
      ensures k in s[1..]
    {
      var i :| 0 <= i < |s| && s[i] == k;
      assert s[1..][i - 1] == k;
    }
  }

  lemma {:induction false} EmptyListing(s: seq<Key>, keys: set<Key>)
    requires Sorts(s, keys)
    ensures s == [] <==> keys == {}
  {
    if s != [] {
      assert s[0] in keys;
    }
  }

  /** A set of keys has only one sorted listing. */
  lemma {:induction false} SortingIsUnique(s: seq<Key>, t: seq<Key>, keys: set<Key>)
    requires Sorts(s, keys) && Sorts(t, keys)
    ensures s == t
    decreases |s|
  {
    EmptyListing(s, keys);
    EmptyListing(t, keys);
    if s != [] {
      SortedHead(s, keys);
      SortedHead(t, keys);
      BeforeTotal(s[0], t[0]);
      assert s[0] == t[0];
      SortingIsUnique(s[1..], t[1..], keys - {s[0]});
      assert s == [s[0]] + s[1..] && t == [t[0]] + t[1..];
    }
  }

  /** Position of the first key with these names. */
  function PositionFrom(s: seq<Key>, first: string, second: string, from: nat): (i: nat)
    requires from <= |s|
    ensures from <= i <= |s|
    ensures i < |s| ==> s[i].first == first && s[i].second == second
    ensures forall j :: from <= j < i ==> s[j].first != first || s[j].second != second
    decreases |s| - from
  {
    if from == |s| || (s[from].first == first && s[from].second == second) then from
    else PositionFrom(s, first, second, from + 1)
  }

  /** Where `k` goes in a sorted listing. */
  function SlotFrom(s: seq<Key>, k: Key, from: nat): (i: nat)
    requires from <= |s|
    ensures from <= i <= |s|
    ensures forall j :: from <= j < i ==> Before(s[j], k)
    ensures i < |s| ==> !Before(s[i], k)
    decreases |s| - from
  {
    if from < |s| && Before(s[from], k) then SlotFrom(s, k, from + 1) else from
  }

  function Insert(s: seq<Key>, k: Key): seq<Key> {
    var i := SlotFrom(s, k, 0);
    s[..i] + [k] + s[i..]
  }

  lemma {:induction false} InsertKeepsOrder(s: seq<Key>, k: Key, i: nat)
    requires Ascending(s) && k !in s && i <= |s|
    requires forall j :: 0 <= j < i ==> Before(s[j], k)
    requires i < |s| ==> !Before(s[i], k)
    ensures Ascending(s[..i] + [k] + s[i..])
  {
    var r := s[..i] + [k] + s[i..];
    forall j | i <= j < |s|
      ensures Before(k, s[j])
    {
      assert s[i] in s;
      BeforeTotal(k, s[i]);
      if i < j {
        BeforeTransitive(k, s[i], s[j]);
      }
    }
    forall a, b | 0 <= a < b < |r|
      ensures Before(r[a], r[b])
    {
    }
  }

  lemma {:induction false} InsertSorts(s: seq<Key>, k: Key, keys: set<Key>)
    requires Sorts(s, keys) && k !in keys
    ensures Sorts(Insert(s, k), keys + {k})
  {
    var i := SlotFrom(s, k, 0);
    InsertKeepsOrder(s, k, i);
    assert s == s[..i] + s[i..];
    assert forall x :: x in Insert(s, k) <==> x in s || x == k;
  }

  lemma {:induction false} ListingExists(keys: set<Key>)
    ensures exists s :: Sorts(s, keys)
  {
    if keys == {} {
      assert Sorts([], keys);
    } else {
      var k :| k in keys;
      ListingExists(keys - {k});
      var s :| Sorts(s, keys - {k});
      InsertSorts(s, k, keys - {k});
      assert keys - {k} + {k} == keys;
      assert Sorts(Insert(s, k), keys);
    }
  }

  /** The sorted listing of a set of keys. */
  ghost function Listing(keys: set<Key>): (s: seq<Key>)
    ensures Sorts(s, keys)
  {
    ListingExists(keys);
    var s :| Sorts(s, keys);
    s
  }

  lemma {:induction false} ListingLength(s: seq<Key>, keys: set<Key>)
    requires Sorts(s, keys)
    ensures |s| == |keys|
    decreases |s|
  {
    EmptyListing(s, keys);
    if s != [] {
      SortedHead(s, keys);
      ListingLength(s[1..], keys - {s[0]});
    }
  }

  /** Insertion sort of the keys, taken in any order. */
  method Sort(keys: set<Key>) returns (s: seq<Key>)
    ensures s == Listing(keys)
  {
    s := [];
    var todo := keys;
    while todo != {}
      invariant todo <= keys
      invariant Sorts(s, keys - todo)
      decreases todo
    {
      var k :| k in todo;
      var i := 0;
      while i < |s| && Before(s[i], k)
        invariant 0 <= i <= |s|
        invariant SlotFrom(s, k, 0) == SlotFrom(s, k, i)
      {
        i := i + 1;
      }
      InsertSorts(s, k, keys - todo);
      s := s[..i] + [k] + s[i..];
      assert keys - todo + {k} == keys - (todo - {k});
      todo := todo - {k};
    }
    assert keys - todo == keys;
    SortingIsUnique(s, Listing(keys), keys);
  }
}
