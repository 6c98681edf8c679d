/**
 * The order of the list get_backgrounds_object returns
 * (td/telegram/BackgroundManager.cpp:1118-1132): std::stable_sort by a key
 * that is 0 for the selected background, 1 for a background of the
 * requested darkness and 2 for the rest.
 */
module BackgroundOrder {
  import opened BackgroundTypes

  /** The part of a td_api background object the order and the tests look at. */
  datatype BackgroundObject = BackgroundObject(id: BackgroundId, isDefault: bool, isDark: bool, name: string, objectType: BackgroundType)

  function OrderKey(o: BackgroundObject, selectedId: BackgroundId, forDarkTheme: bool): (k: nat)
    ensures k <= 2
  {
    if o.id == selectedId then 0 else if o.isDark == forDarkTheme then 1 else 2
  }

  /** The objects of one key, in their original relative order. */
  function WithKey(objects: seq<BackgroundObject>, selectedId: BackgroundId, forDarkTheme: bool, k: nat): (r: seq<BackgroundObject>)
    ensures |r| <= |objects|
  {
    if objects == [] then []
    else Head(objects[0], selectedId, forDarkTheme, k) + WithKey(objects[1..], selectedId, forDarkTheme, k)
  }

  /** The one-element contribution of an object to WithKey. */
  function Head(o: BackgroundObject, selectedId: BackgroundId, forDarkTheme: bool, k: nat): (r: seq<BackgroundObject>)
    ensures |r| <= 1
    ensures forall i :: 0 <= i < |r| ==> r[i] == o && OrderKey(o, selectedId, forDarkTheme) == k
  {
    if OrderKey(o, selectedId, forDarkTheme) == k then [o] else []
  }

  /** Every object WithKey keeps has that key. */
  lemma {:induction false} WithKeyKeys(objects: seq<BackgroundObject>, selectedId: BackgroundId, forDarkTheme: bool, k: nat)
    ensures forall o :: o in WithKey(objects, selectedId, forDarkTheme, k) ==> OrderKey(o, selectedId, forDarkTheme) == k
  {
    if objects != [] {
      WithKeyKeys(objects[1..], selectedId, forDarkTheme, k);
    }
  }

  /** A stable sort by OrderKey: the key-0 objects, then key 1, then key 2, each group in input order. */
  function StableOrder(objects: seq<BackgroundObject>, selectedId: BackgroundId, forDarkTheme: bool): seq<BackgroundObject>
  {
    WithKey(objects, selectedId, forDarkTheme, 0) + WithKey(objects, selectedId, forDarkTheme, 1)
      + WithKey(objects, selectedId, forDarkTheme, 2)
  }

  predicate SortedByKey(s: seq<BackgroundObject>, selectedId: BackgroundId, forDarkTheme: bool)
  {
    forall i, j :: 0 <= i < j < |s| ==> OrderKey(s[i], selectedId, forDarkTheme) <= OrderKey(s[j], selectedId, forDarkTheme)
  }

  lemma StableOrderSorted(objects: seq<BackgroundObject>, selectedId: BackgroundId, forDarkTheme: bool)
    ensures SortedByKey(StableOrder(objects, selectedId, forDarkTheme), selectedId, forDarkTheme)
  {
    var a := WithKey(objects, selectedId, forDarkTheme, 0);
    var b := WithKey(objects, selectedId, forDarkTheme, 1);
    var c := WithKey(objects, selectedId, forDarkTheme, 2);
    var s := a + b + c;
    WithKeyKeys(objects, selectedId, forDarkTheme, 0);
    WithKeyKeys(objects, selectedId, forDarkTheme, 1);
    WithKeyKeys(objects, selectedId, forDarkTheme, 2);
    forall i, j | 0 <= i < j < |s|
      ensures OrderKey(s[i], selectedId, forDarkTheme) <= OrderKey(s[j], selectedId, forDarkTheme)
    {
      assert s[i] in (if i < |a| then a else if i < |a| + |b| then b else c);
      assert s[j] in (if j < |a| then a else if j < |a| + |b| then b else c);
      assert OrderKey(s[i], selectedId, forDarkTheme) == (if i < |a| then 0 else if i < |a| + |b| then 1 else 2);
      assert OrderKey(s[j], selectedId, forDarkTheme) == (if j < |a| then 0 else if j < |a| + |b| then 1 else 2);
    }
  }

  /** Splitting by key loses nothing and duplicates nothing. */
  lemma {:induction false} WithKeyPartition(objects: seq<BackgroundObject>, selectedId: BackgroundId, forDarkTheme: bool)
    ensures multiset(WithKey(objects, selectedId, forDarkTheme, 0)) + multiset(WithKey(objects, selectedId, forDarkTheme, 1))
            + multiset(WithKey(objects, selectedId, forDarkTheme, 2)) == multiset(objects)
  {
    if objects != [] {
      var o, rest := objects[0], objects[1..];
      WithKeyPartition(rest, selectedId, forDarkTheme);
      HeadPartition(o, selectedId, forDarkTheme);
      WithKeyCons(objects, selectedId, forDarkTheme, 0);
      WithKeyCons(objects, selectedId, forDarkTheme, 1);
      WithKeyCons(objects, selectedId, forDarkTheme, 2);
      RegroupThree(Head(o, selectedId, forDarkTheme, 0), Head(o, selectedId, forDarkTheme, 1), Head(o, selectedId, forDarkTheme, 2),
                   WithKey(rest, selectedId, forDarkTheme, 0), WithKey(rest, selectedId, forDarkTheme, 1), WithKey(rest, selectedId, forDarkTheme, 2));
      ConsMultiset(objects);
    }
  }

  lemma WithKeyCons(objects: seq<BackgroundObject>, selectedId: BackgroundId, forDarkTheme: bool, k: nat)
    requires objects != []
    ensures WithKey(objects, selectedId, forDarkTheme, k)
            == Head(objects[0], selectedId, forDarkTheme, k) + WithKey(objects[1..], selectedId, forDarkTheme, k)
  {
  }

  lemma ConsMultiset(objects: seq<BackgroundObject>)
    requires objects != []
    ensures multiset(objects) == multiset{objects[0]} + multiset(objects[1..])
  {
    assert objects == [objects[0]] + objects[1..];
  }

  lemma RegroupThree(h0: seq<BackgroundObject>, h1: seq<BackgroundObject>, h2: seq<BackgroundObject>,
                     r0: seq<BackgroundObject>, r1: seq<BackgroundObject>, r2: seq<BackgroundObject>)
    ensures multiset(h0 + r0) + multiset(h1 + r1) + multiset(h2 + r2)
            == (multiset(h0) + multiset(h1) + multiset(h2)) + (multiset(r0) + multiset(r1) + multiset(r2))
  {
  }

  lemma HeadPartition(o: BackgroundObject, selectedId: BackgroundId, forDarkTheme: bool)
    ensures multiset(Head(o, selectedId, forDarkTheme, 0)) + multiset(Head(o, selectedId, forDarkTheme, 1))
            + multiset(Head(o, selectedId, forDarkTheme, 2)) == multiset{o}
  {
  }

  /** The ordered list is a permutation of its input. */
  lemma StableOrderPermutes(objects: seq<BackgroundObject>, selectedId: BackgroundId, forDarkTheme: bool)
    ensures multiset(StableOrder(objects, selectedId, forDarkTheme)) == multiset(objects)
  {
    WithKeyPartition(objects, selectedId, forDarkTheme);
  }

  /** Stability: within one key, the ordered list keeps the input's relative order. */
  lemma StableOrderIsStable(objects: seq<BackgroundObject>, selectedId: BackgroundId, forDarkTheme: bool, k: nat)
    requires k <= 2
    ensures WithKey(StableOrder(objects, selectedId, forDarkTheme), selectedId, forDarkTheme, k)
            == WithKey(objects, selectedId, forDarkTheme, k)
  {
    var a := WithKey(objects, selectedId, forDarkTheme, 0);
    var b := WithKey(objects, selectedId, forDarkTheme, 1);
    var c := WithKey(objects, selectedId, forDarkTheme, 2);
    WithKeyAppend(a + b, c, selectedId, forDarkTheme, k);
    WithKeyAppend(a, b, selectedId, forDarkTheme, k);
    WithKeyKeys(objects, selectedId, forDarkTheme, 0);
    WithKeyKeys(objects, selectedId, forDarkTheme, 1);
    WithKeyKeys(objects, selectedId, forDarkTheme, 2);
    WithKeyUniform(a, selectedId, forDarkTheme, 0, k);
    WithKeyUniform(b, selectedId, forDarkTheme, 1, k);
    WithKeyUniform(c, selectedId, forDarkTheme, 2, k);
  }

  lemma {:induction false} WithKeyAppend(s: seq<BackgroundObject>, t: seq<BackgroundObject>, selectedId: BackgroundId, forDarkTheme: bool, k: nat)
    ensures WithKey(s + t, selectedId, forDarkTheme, k) == WithKey(s, selectedId, forDarkTheme, k) + WithKey(t, selectedId, forDarkTheme, k)
  {
    if s == [] {
      assert s + t == t;
    } else {
      var h, rest, tail := Head(s[0], selectedId, forDarkTheme, k), WithKey(s[1..], selectedId, forDarkTheme, k), WithKey(t, selectedId, forDarkTheme, k);
      calc {
        WithKey(s + t, selectedId, forDarkTheme, k);
        { WithKeyCons(s + t, selectedId, forDarkTheme, k); assert (s + t)[0] == s[0] && (s + t)[1..] == s[1..] + t; }
        h + WithKey(s[1..] + t, selectedId, forDarkTheme, k);
        { WithKeyAppend(s[1..], t, selectedId, forDarkTheme, k); }
        h + (rest + tail);
        { AppendAssociates(h, rest, tail); }
        (h + rest) + tail;
      }
    }
  }

  /** Concatenation regroups; stated once so that long proofs need not rediscover it. */
  lemma AppendAssociates<T>(a: seq<T>, b: seq<T>, c: seq<T>)
    ensures a + (b + c) == (a + b) + c
  {
  }

  /** Filtering a list whose objects all have key j keeps all of it for k == j and none otherwise. */
  lemma {:induction false} WithKeyUniform(s: seq<BackgroundObject>, selectedId: BackgroundId, forDarkTheme: bool, j: nat, k: nat)
    requires forall o :: o in s ==> OrderKey(o, selectedId, forDarkTheme) == j
    ensures WithKey(s, selectedId, forDarkTheme, k) == if j == k then s else []
  {
    if s != [] {
      WithKeyUniform(s[1..], selectedId, forDarkTheme, j, k);
      assert s == [s[0]] + s[1..];
      assert Head(s[0], selectedId, forDarkTheme, k) == if j == k then [s[0]] else [];
    }
  }

  /** The selected background, when listed, comes first. */
  lemma SelectedComesFirst(objects: seq<BackgroundObject>, selectedId: BackgroundId, forDarkTheme: bool, i: nat)
    requires i < |objects| && objects[i].id == selectedId
    ensures var s := StableOrder(objects, selectedId, forDarkTheme); |s| > 0 && s[0].id == selectedId
  {
    StableOrderPermutes(objects, selectedId, forDarkTheme);
    StableOrderSorted(objects, selectedId, forDarkTheme);
    var s := StableOrder(objects, selectedId, forDarkTheme);
    assert objects[i] in multiset(objects);
    assert objects[i] in s;
    var j :| 0 <= j < |s| && s[j] == objects[i];
    assert OrderKey(s[0], selectedId, forDarkTheme) <= OrderKey(s[j], selectedId, forDarkTheme);
  }
}
