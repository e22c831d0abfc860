/** The dict operations json2openapi.py relies on, over `Doc`: lookup `d[k]`,
    item assignment `d[k] = x` and nested assignment `d[a][b][c] = x`. A dict
    keeps its insertion order, so assignment to a key it holds keeps the key
    where it is and assignment to a new key appends it. */
module Dicts {
  import opened Values

  type Entries = seq<(Key, Doc)>

  /** The keys of a dict in insertion order. */
  function Keys(es: Entries): seq<Key>
  {
    seq(|es|, i requires 0 <= i < |es| => es[i].0)
  }

  predicate DistinctKeys(es: Entries)
  {
    forall i, j :: 0 <= i < j < |es| ==> es[i].0 != es[j].0
  }

  /** The position of key `k` in the dict (its first item with that key), or None. */
  function IndexOf(es: Entries, k: Key): (r: Option<nat>)
    ensures r.Some? ==> r.value < |es| && es[r.value].0 == k
    ensures r.Some? ==> forall j :: 0 <= j < r.value ==> es[j].0 != k
    ensures r.None? <==> forall j :: 0 <= j < |es| ==> es[j].0 != k
  {
    if |es| == 0 then None
    else if es[0].0 == k then Some(0)
    else
      match IndexOf(es[1..], k)
      case None => None
      case Some(j) => Some(j + 1)
  }

  lemma KeysMember(es: Entries, k: Key)
    ensures k in Keys(es) <==> exists j :: 0 <= j < |es| && es[j].0 == k
  {
    if exists j :: 0 <= j < |es| && es[j].0 == k {
      var j :| 0 <= j < |es| && es[j].0 == k;
      assert Keys(es)[j] == k;
    }
  }

  /** Two dicts with the same keys in the same order find every key at the same position. */
  lemma {:induction false} IndexOfSameKeys(es: Entries, r: Entries, k: Key)
    requires Keys(es) == Keys(r)
    ensures IndexOf(es, k) == IndexOf(r, k)
  {
    assert |es| == |Keys(es)| == |r|;
    if |es| > 0 {
      assert es[0].0 == Keys(es)[0] == r[0].0;
      assert Keys(es[1..]) == Keys(r[1..]) by {
        forall j | 0 <= j < |es| - 1 ensures Keys(es[1..])[j] == Keys(r[1..])[j] {
          assert Keys(es)[j + 1] == Keys(r)[j + 1];
        }
      }
      IndexOfSameKeys(es[1..], r[1..], k);
    }
  }

  /** Appending an item leaves the position of every key already present, and
      finds the new key at the end when it was absent. */
  lemma {:induction false} IndexOfAppend(es: Entries, k: Key, x: Doc, k': Key)
    ensures IndexOf(es + [(k, x)], k') ==
      if IndexOf(es, k').Some? then IndexOf(es, k')
      else if k' == k then Some(|es|)
      else None
  {
    if |es| > 0 {
      assert (es + [(k, x)])[1..] == es[1..] + [(k, x)];
      IndexOfAppend(es[1..], k, x, k');
    }
  }

  /** `d[k]`: the value stored under `k`, or None where Python raises (a missing
      key, or `d` not a dict). */
  function Get(d: Doc, k: Key): (r: Option<Doc>)
    ensures r.Some? <==> d.Dict? && k in Keys(d.entries)
    ensures r.Some? ==> exists j :: 0 <= j < |d.entries| && d.entries[j] == (k, r.value)
  {
    match d
    case Leaf(_) => None
    case Dict(es) =>
      KeysMember(es, k);
      match IndexOf(es, k)
      case None => None
      case Some(i) => Some(es[i].1)
  }

  /** In a dict whose keys are distinct, each item is found under its own key. */
  lemma GetDistinct(es: Entries, i: nat)
    requires DistinctKeys(es) && i < |es|
    ensures Get(Dict(es), es[i].0) == Some(es[i].1)
  {
    var r := IndexOf(es, es[i].0);
    assert r.Some?;
  }

  /** `d[k] = x`: the value of `k` is replaced where `k` stands, or `k` is appended. */
  function Put(es: Entries, k: Key, x: Doc): (r: Entries)
    ensures Keys(r) == if k in Keys(es) then Keys(es) else Keys(es) + [k]
    ensures Get(Dict(r), k) == Some(x)
    ensures forall k' :: k' != k ==> Get(Dict(r), k') == Get(Dict(es), k')
    ensures DistinctKeys(es) ==> DistinctKeys(r)
    ensures k !in Keys(es) ==> r == es + [(k, x)]
  {
    KeysMember(es, k);
    match IndexOf(es, k)
    case Some(i) =>
      var r := es[i := (k, x)];
      assert Keys(r) == Keys(es);
      forall k' ensures IndexOf(r, k') == IndexOf(es, k') {
        IndexOfSameKeys(es, r, k');
      }
      r
    case None =>
      var r := es + [(k, x)];
      assert Keys(r) == Keys(es) + [k];
      forall k' ensures IndexOf(r, k') == if IndexOf(es, k').Some? then IndexOf(es, k') else if k' == k then Some(|es|) else None {
        IndexOfAppend(es, k, x, k');
      }
      r
  }

  /** In a dict whose keys are distinct, assigning to a key it holds replaces that
      one item where it stands. */
  lemma PutDistinct(es: Entries, i: nat, x: Doc)
    requires DistinctKeys(es) && i < |es|
    ensures Put(es, es[i].0, x) == es[i := (es[i].0, x)]
  {
    var r := IndexOf(es, es[i].0);
    assert r.Some?;
  }

  /** `d[ks[0]][ks[1]]...`: None where Python raises (a missing key, or a value
      that is not a dict on the way). */
  function Lookup(d: Doc, ks: seq<Key>): Option<Doc>
    decreases |ks|
  {
    if |ks| == 0 then Some(d)
    else
      match Get(d, ks[0])
      case None => None
      case Some(c) => Lookup(c, ks[1..])
  }

  lemma LookupOne(d: Doc, k: Key)
    ensures Lookup(d, [k]) == Get(d, k)
  {
    assert [k][1..] == [];
  }

  lemma LookupTwo(d: Doc, k: Key, k': Key)
    ensures Lookup(d, [k, k']) == if Get(d, k).Some? then Get(Get(d, k).value, k') else None
  {
    assert [k, k'][1..] == [k'];
    if Get(d, k).Some? {
      LookupOne(Get(d, k).value, k');
    }
  }

  /** Reading along `p + q` is reading along `p`, then along `q` from there. */
  lemma {:induction false} LookupAppend(d: Doc, p: seq<Key>, q: seq<Key>)
    ensures Lookup(d, p + q) == if Lookup(d, p).Some? then Lookup(Lookup(d, p).value, q) else None
    decreases |p|
  {
    if |p| > 0 {
      assert (p + q)[0] == p[0] && (p + q)[1..] == p[1..] + q;
      if Get(d, p[0]).Some? {
        LookupAppend(Get(d, p[0]).value, p[1..], q);
      }
    } else {
      assert p + q == q;
    }
  }

  /** Assigning through item `i` of a dict whose keys are distinct rebuilds that
      item alone, in its place. */
  lemma SetInAt(es: Entries, i: nat, ks: seq<Key>, x: Doc, c': Doc)
    requires DistinctKeys(es) && i < |es| && |ks| > 0 && ks[0] == es[i].0
    requires |ks| == 1 ==> c' == x
    requires |ks| > 1 ==> SetIn(es[i].1, ks[1..], x) == Some(c')
    ensures SetIn(Dict(es), ks, x) == Some(Dict(es[i := (ks[0], c')]))
  {
    GetDistinct(es, i);
    PutDistinct(es, i, c');
  }

  /** The keys, in order, of the dict found at path `q`. */
  function KeysAt(d: Doc, q: seq<Key>): Option<seq<Key>>
  {
    match Lookup(d, q)
    case Some(Dict(es)) => Some(Keys(es))
    case _ => None
  }

  /** `d[ks[0]]...[ks[n-1]] = x`: every key but the last must be there already
      (Python raises KeyError otherwise, here None); the last is replaced where it
      stands or appended. The empty path replaces the whole of `d`. The assignment
      succeeds exactly when the path without its last key leads to a dict, and
      the assigned path then reads `x`. */
  function SetIn(d: Doc, ks: seq<Key>, x: Doc): (r: Option<Doc>)
    ensures r.Some? <==> |ks| == 0 || KeysAt(d, ks[..|ks| - 1]).Some?
    ensures r.Some? ==> Lookup(r.value, ks) == Some(x)
    decreases |ks|
  {
    if |ks| == 0 then Some(x)
    else
      assert |ks| > 1 ==> ks[..|ks| - 1][1..] == ks[1..|ks| - 1];
      match d
      case Leaf(_) => None
      case Dict(es) =>
        match NewChild(d, ks, x)
        case None => None
        case Some(c') => Some(Dict(Put(es, ks[0], c')))
  }

  /** The value `SetIn` stores under the first key of `ks`: `x` itself for a
      one-key path, otherwise the child assigned along the rest of the path. */
  function NewChild(d: Doc, ks: seq<Key>, x: Doc): (r: Option<Doc>)
    requires |ks| > 0
    ensures r.Some? <==> |ks| == 1 || (Get(d, ks[0]).Some? && KeysAt(Get(d, ks[0]).value, ks[1..|ks| - 1]).Some?)
    ensures r.Some? ==> Lookup(r.value, ks[1..]) == Some(x)
    decreases |ks|, 0
  {
    if |ks| == 1 then Some(x)
    else
      assert ks[1..][..|ks| - 2] == ks[1..|ks| - 1];
      match Get(d, ks[0])
      case None => None
      case Some(c) => SetIn(c, ks[1..], x)
  }

  /** Neither path is a prefix of the other: they lead to unrelated places. */
  predicate Diverge(p: seq<Key>, q: seq<Key>)
  {
    !(p <= q) && !(q <= p)
  }

  /** After an assignment at `ks`, a path through `ks` reads inside the new value,
      and a path that branches off `ks` reads exactly what it read before. */
  lemma {:induction false} SetInLookup(d: Doc, ks: seq<Key>, x: Doc, q: seq<Key>)
    requires SetIn(d, ks, x).Some?
    ensures ks <= q ==> Lookup(SetIn(d, ks, x).value, q) == Lookup(x, q[|ks|..])
    ensures Diverge(ks, q) ==> Lookup(SetIn(d, ks, x).value, q) == Lookup(d, q)
    decreases |ks|
  {
    if |ks| > 0 && |q| > 0 {
      var c' := NewChild(d, ks, x).value;
      var r := Dict(Put(d.entries, ks[0], c'));
      assert SetIn(d, ks, x).value == r;
      if q[0] != ks[0] {
        assert Get(r, q[0]) == Get(d, q[0]);
      } else {
        assert Get(r, q[0]) == Some(c');
        assert Lookup(r, q) == Lookup(c', q[1..]);
        if |ks| == 1 {
          assert q[|ks|..] == q[1..];
        } else {
          var c := Get(d, ks[0]).value;
          SetInLookup(c, ks[1..], x, q[1..]);
          assert ks <= q <==> ks[1..] <= q[1..];
          assert q <= ks <==> q[1..] <= ks[1..];
          if ks <= q {
            assert q[|ks|..] == q[1..][|ks[1..]|..];
          }
        }
      }
    }
  }

  /** An assignment at a path that is already there succeeds, and every dict on
      the way to it keeps its keys in their order. */
  lemma {:induction false} SetInExisting(d: Doc, ks: seq<Key>, x: Doc, q: seq<Key>)
    requires Lookup(d, ks).Some?
    ensures SetIn(d, ks, x).Some?
    ensures q < ks ==> KeysAt(d, q).Some? && KeysAt(SetIn(d, ks, x).value, q) == KeysAt(d, q)
    decreases |ks|
  {
    if |ks| > 0 {
      var c := Get(d, ks[0]).value;
      if |ks| > 1 {
        SetInExisting(c, ks[1..], x, if |q| > 0 then q[1..] else []);
      }
      var c' := NewChild(d, ks, x).value;
      var r := Dict(Put(d.entries, ks[0], c'));
      assert SetIn(d, ks, x) == Some(r);
      assert Keys(r.entries) == Keys(d.entries);
      if 0 < |q| && q < ks {
        assert q[1..] < ks[1..];
        assert Get(r, q[0]) == Some(c');
      }
    }
  }
}
