/** A JavaScript plain object used as a dictionary, as the projection uses
    them: the entries in insertion order, a write to a present key replacing
    the value in place, a write to an absent key appending. `Object.values`
    is `Values`, `k in obj` is `k in Keys(m)` and the spread `{...a, ...b}`
    is `Merge(a, b)`. */
module OrderedMap {
  import opened Wrappers

  /** JavaScript object keys are strings. */
  type OMap<V> = seq<(string, V)>

  function Keys<V>(m: OMap<V>): (ks: seq<string>)
    ensures |ks| == |m|
    ensures forall i :: 0 <= i < |m| ==> ks[i] == m[i].0
  {
    seq(|m|, i requires 0 <= i < |m| => m[i].0)
  }

  function Values<V>(m: OMap<V>): (vs: seq<V>)
    ensures |vs| == |m|
    ensures forall i :: 0 <= i < |m| ==> vs[i] == m[i].1
  {
    seq(|m|, i requires 0 <= i < |m| => m[i].1)
  }

  /** No key occurs twice: every object the projection builds has this shape. */
  ghost predicate Valid<V>(m: OMap<V>) {
    forall i, j :: 0 <= i < j < |m| ==> m[i].0 != m[j].0
  }

  /** Position of the first occurrence of `k` in `ks`. */
  function Position(ks: seq<string>, k: string): (i: nat)
    requires k in ks
    ensures i < |ks| && ks[i] == k
    ensures forall j :: 0 <= j < i ==> ks[j] != k
  {
    if ks[0] == k then 0 else 1 + Position(ks[1..], k)
  }

  function IndexOf<V>(m: OMap<V>, k: string): (i: nat)
    requires k in Keys(m)
    ensures i < |m| && m[i].0 == k
  {
    Position(Keys(m), k)
  }

  /** The value stored under a key that is present. */
  function Lookup<V>(m: OMap<V>, k: string): V
    requires k in Keys(m)
  {
    m[IndexOf(m, k)].1
  }

  function Get<V>(m: OMap<V>, k: string): Option<V> {
    if k in Keys(m) then Some(Lookup(m, k)) else None
  }

  /** `obj[k] = v`. */
  function Put<V>(m: OMap<V>, k: string, v: V): (r: OMap<V>)
    ensures k in Keys(m) ==> r == m[IndexOf(m, k) := (k, v)]
    ensures k !in Keys(m) ==> r == m + [(k, v)]
  {
    if |m| == 0 then [(k, v)]
    else if m[0].0 == k then [(k, v)] + m[1..]
    else
      PutTail(m, k, v);
      [m[0]] + Put(m[1..], k, v)
  }

  /** Past a head with another key, writing `k` writes into the tail. */
  lemma {:induction false} PutTail<V>(m: OMap<V>, k: string, v: V)
    requires |m| > 0 && m[0].0 != k
    ensures k in Keys(m) <==> k in Keys(m[1..])
    ensures k in Keys(m) ==>
      m[IndexOf(m, k) := (k, v)] == [m[0]] + m[1..][IndexOf(m[1..], k) := (k, v)]
  {
    assert Keys(m[1..]) == Keys(m)[1..];
    if k in Keys(m) {
      assert IndexOf(m, k) == 1 + IndexOf(m[1..], k);
    }
  }

  /** `{...a, ...b}`: the entries of `b` written into `a` one by one. */
  function Merge<V>(a: OMap<V>, b: OMap<V>): OMap<V>
    decreases |b|
  {
    if |b| == 0 then a else Merge(Put(a, b[0].0, b[0].1), b[1..])
  }

  /** The entries of `b` whose key `a` lacks, in `b`'s order. */
  function Fresh<V>(b: OMap<V>, a: OMap<V>): OMap<V> {
    if |b| == 0 then []
    else (if b[0].0 in Keys(a) then [] else [b[0]]) + Fresh(b[1..], a)
  }

  /** `a` in its own order, each value replaced by `b`'s where `b` has the key. */
  function Overlay<V>(a: OMap<V>, b: OMap<V>): OMap<V> {
    seq(|a|, i requires 0 <= i < |a| =>
      (a[i].0, if a[i].0 in Keys(b) then Lookup(b, a[i].0) else a[i].1))
  }

  /** In a map without repeated keys, a key's index is where it sits. */
  lemma {:induction false} IndexOfValid<V>(m: OMap<V>, i: nat)
    requires Valid(m) && i < |m|
    ensures m[i].0 in Keys(m) && IndexOf(m, m[i].0) == i
    ensures Lookup(m, m[i].0) == m[i].1
  {
    assert Keys(m)[i] == m[i].0;
  }

  lemma {:induction false} PutValid<V>(m: OMap<V>, k: string, v: V)
    requires Valid(m)
    ensures Valid(Put(m, k, v))
    ensures k in Keys(Put(m, k, v))
    ensures forall k' :: k' in Keys(m) ==> k' in Keys(Put(m, k, v))
  {
    var r := Put(m, k, v);
    if k in Keys(m) {
      assert Keys(r) == Keys(m);
    } else {
      assert Keys(r) == Keys(m) + [k];
    }
  }

  /** Writing into a map without repeated keys never repeats a key. */
  lemma {:induction false} MergeValid<V>(a: OMap<V>, b: OMap<V>)
    requires Valid(a)
    ensures Valid(Merge(a, b))
    ensures forall k :: k in Keys(a) ==> k in Keys(Merge(a, b))
    ensures forall k :: k in Keys(b) ==> k in Keys(Merge(a, b))
    decreases |b|
  {
    if |b| > 0 {
      var p := Put(a, b[0].0, b[0].1);
      PutValid(a, b[0].0, b[0].1);
      MergeValid(p, b[1..]);
      assert Merge(a, b) == Merge(p, b[1..]);
      forall k | k in Keys(b)
        ensures k in Keys(Merge(p, b[1..]))
      {
        if k != b[0].0 {
          var j :| 0 <= j < |b| && b[j].0 == k;
          assert Keys(b[1..])[j - 1] == k;
        }
      }
    }
  }

  /** `Fresh` only asks whether a key is in `a`. */
  lemma {:induction false} FreshSameKeys<V>(b: OMap<V>, a1: OMap<V>, a2: OMap<V>)
    requires forall k :: k in Keys(b) ==> (k in Keys(a1) <==> k in Keys(a2))
    ensures Fresh(b, a1) == Fresh(b, a2)
  {
    if |b| > 0 {
      assert Keys(b[1..]) == Keys(b)[1..];
      FreshSameKeys(b[1..], a1, a2);
    }
  }

  lemma {:induction false} FreshDisjoint<V>(b: OMap<V>, a: OMap<V>)
    requires forall k :: k in Keys(b) ==> k !in Keys(a)
    ensures Fresh(b, a) == b
  {
    if |b| > 0 {
      assert Keys(b[1..]) == Keys(b)[1..];
      assert Keys(b)[0] == b[0].0;
      FreshDisjoint(b[1..], a);
      assert [b[0]] + b[1..] == b;
    }
  }

  /** A later value under an existing key of `b` is `b`'s value there too. */
  lemma {:induction false} LookupTail<V>(b: OMap<V>, k: string)
    requires Valid(b) && |b| > 0 && k in Keys(b[1..])
    ensures k in Keys(b) && k != b[0].0
    ensures Lookup(b, k) == Lookup(b[1..], k)
  {
    var j := IndexOf(b[1..], k);
    IndexOfValid(b, j + 1);
    assert b[j + 1] == b[1..][j];
    assert Valid(b[1..]);
    IndexOfValid(b[1..], j);
  }

  lemma {:induction false} HeadNotInTail<V>(b: OMap<V>)
    requires Valid(b) && |b| > 0
    ensures b[0].0 !in Keys(b[1..])
    ensures Lookup(b, b[0].0) == b[0].1
  {
    IndexOfValid(b, 0);
  }

  lemma {:induction false} OverlayTailPresent<V>(a: OMap<V>, b: OMap<V>)
    requires Valid(a) && Valid(b) && |b| > 0 && b[0].0 in Keys(a)
    ensures Overlay(Put(a, b[0].0, b[0].1), b[1..]) == Overlay(a, b)
  {
    var a' := Put(a, b[0].0, b[0].1);
    var i := IndexOf(a, b[0].0);
    HeadNotInTail(b);
    assert Keys(a') == Keys(a);
    forall j | 0 <= j < |a|
      ensures Overlay(a', b[1..])[j] == Overlay(a, b)[j]
    {
      if j != i {
        IndexOfValid(a, j);
        IndexOfValid(a, i);
        if a[j].0 in Keys(b[1..]) {
          LookupTail(b, a[j].0);
        }
        assert Keys(b) == [b[0].0] + Keys(b[1..]);
      }
    }
  }

  lemma {:induction false} OverlayTailAbsent<V>(a: OMap<V>, b: OMap<V>)
    requires Valid(a) && Valid(b) && |b| > 0 && b[0].0 !in Keys(a)
    ensures Overlay(Put(a, b[0].0, b[0].1), b[1..]) == Overlay(a, b) + [b[0]]
  {
    var a' := Put(a, b[0].0, b[0].1);
    HeadNotInTail(b);
    assert a' == a + [b[0]];
    forall j | 0 <= j < |a|
      ensures Overlay(a', b[1..])[j] == Overlay(a, b)[j]
    {
      assert a[j].0 != b[0].0 by { assert Keys(a)[j] == a[j].0; }
      if a[j].0 in Keys(b[1..]) {
        LookupTail(b, a[j].0);
      }
      assert Keys(b) == [b[0].0] + Keys(b[1..]);
    }
  }

  /** One step of the spread: writing `b`'s first entry into `a`. */
  lemma {:induction false} MergeStep<V>(a: OMap<V>, b: OMap<V>)
    requires Valid(a) && Valid(b) && |b| > 0
    ensures Overlay(Put(a, b[0].0, b[0].1), b[1..]) + Fresh(b[1..], Put(a, b[0].0, b[0].1))
         == Overlay(a, b) + Fresh(b, a)
  {
    var a' := Put(a, b[0].0, b[0].1);
    HeadNotInTail(b);
    if b[0].0 in Keys(a) {
      OverlayTailPresent(a, b);
      assert Keys(a') == Keys(a);
      FreshSameKeys(b[1..], a', a);
      assert Fresh(b, a) == Fresh(b[1..], a);
    } else {
      OverlayTailAbsent(a, b);
      assert Keys(a') == Keys(a) + [b[0].0];
      FreshSameKeys(b[1..], a', a);
      assert Fresh(b, a) == [b[0]] + Fresh(b[1..], a);
    }
  }

  /** The spread `{...a, ...b}` of two objects: `a`'s keys keep their places
      and take `b`'s value where `b` has them too, and after them come `b`'s
      other entries in `b`'s order. */
  lemma {:induction false} MergeIsOverlayThenFresh<V>(a: OMap<V>, b: OMap<V>)
    requires Valid(a) && Valid(b)
    ensures Merge(a, b) == Overlay(a, b) + Fresh(b, a)
    decreases |b|
  {
    if |b| == 0 {
      assert Overlay(a, b) == a;
    } else {
      var a' := Put(a, b[0].0, b[0].1);
      assert Valid(b[1..]);
      PutValid(a, b[0].0, b[0].1);
      MergeIsOverlayThenFresh(a', b[1..]);
      MergeStep(a, b);
    }
  }

  /** Spreading two objects without a common key lays them end to end. */
  lemma {:induction false} MergeDisjoint<V>(a: OMap<V>, b: OMap<V>)
    requires Valid(a) && Valid(b)
    requires forall k :: k in Keys(b) ==> k !in Keys(a)
    ensures Merge(a, b) == a + b
  {
    MergeIsOverlayThenFresh(a, b);
    FreshDisjoint(b, a);
    assert Overlay(a, b) == a;
  }

  /** Writing under a present key of a map without repeated keys changes
      that one entry. */
  lemma {:induction false} PutPresent<V>(m: OMap<V>, k: string, v: V)
    requires Valid(m) && k in Keys(m)
    ensures Valid(Put(m, k, v)) && |Put(m, k, v)| == |m|
    ensures forall i :: 0 <= i < |m| ==> Put(m, k, v)[i] == if m[i].0 == k then (k, v) else m[i]
  {
    var idx := IndexOf(m, k);
    forall i | 0 <= i < |m| && m[i].0 == k
      ensures i == idx
    {
      IndexOfValid(m, i);
    }
  }

  /** A property of every value survives the spread when it holds of every
      value on both sides. */
  lemma {:induction false} MergeKeepsValues<V>(a: OMap<V>, b: OMap<V>, P: V -> bool)
    requires forall i :: 0 <= i < |a| ==> P(a[i].1)
    requires forall i :: 0 <= i < |b| ==> P(b[i].1)
    ensures forall i :: 0 <= i < |Merge(a, b)| ==> P(Merge(a, b)[i].1)
    decreases |b|
  {
    if |b| > 0 {
      var a' := Put(a, b[0].0, b[0].1);
      assert forall i :: 0 <= i < |a'| ==> P(a'[i].1);
      MergeKeepsValues(a', b[1..], P);
    }
  }

  /** The spread has no key that neither side has. */
  lemma {:induction false} MergeKeysWithin<V>(a: OMap<V>, b: OMap<V>)
    ensures forall k :: k in Keys(Merge(a, b)) ==> k in Keys(a) || k in Keys(b)
    decreases |b|
  {
    if |b| > 0 {
      var a' := Put(a, b[0].0, b[0].1);
      MergeKeysWithin(a', b[1..]);
      assert Keys(b) == [b[0].0] + Keys(b[1..]);
      if b[0].0 in Keys(a) {
        assert Keys(a') == Keys(a);
      } else {
        assert Keys(a') == Keys(a) + [b[0].0];
      }
    }
  }

  /** Writing entries into an empty object: the keys are exactly the
      entries' keys. */
  lemma {:induction false} MergeEntriesKeys<V>(es: OMap<V>)
    ensures Valid(Merge([], es))
    ensures forall i :: 0 <= i < |es| ==> es[i].0 in Keys(Merge([], es))
    ensures forall k :: k in Keys(Merge([], es)) ==> exists i :: 0 <= i < |es| && es[i].0 == k
  {
    MergeValid([], es);
    MergeKeysWithin([], es);
    forall i | 0 <= i < |es|
      ensures es[i].0 in Keys(Merge([], es))
    {
      assert Keys(es)[i] == es[i].0;
    }
    forall k | k in Keys(Merge([], es))
      ensures exists i :: 0 <= i < |es| && es[i].0 == k
    {
      assert |Keys<V>([])| == 0;
      var i :| 0 <= i < |Keys(es)| && Keys(es)[i] == k;
    }
  }

  /** Building an object from entries with distinct keys gives those entries. */
  lemma {:induction false} FromDistinctEntries<V>(es: OMap<V>)
    requires Valid(es)
    ensures Merge([], es) == es
  {
    MergeDisjoint([], es);
  }

  lemma ValuesConcat<V>(a: OMap<V>, b: OMap<V>)
    ensures Values(a + b) == Values(a) + Values(b)
  {
  }
}
