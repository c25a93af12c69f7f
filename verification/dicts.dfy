/**
 * Python dict behaviour the pipeline relies on: key equality between numbers,
 * insertion-ordered assignment, dict comprehensions and `**kwargs` unpacking.
 */
module Dicts {
  import opened Results
  import opened Values

  /** An insertion-ordered dict: (key, value) pairs. */
  type Entries = seq<(Value, Value)>

  /** The numeric value of a number, for `==` across `bool`, `int` and `float`. */
  function NumberOf(v: Value): Option<real> {
    match v
    case VBool(b) => Some(if b then 1.0 else 0.0)
    case VInt(i) => Some(i as real)
    case VFloat(f) => Some(f)
    case _ => None
  }

  /** Dict key equality: numbers compare by value (`1 == 1.0`), other values structurally. */
  predicate SameKey(a: Value, b: Value) {
    if NumberOf(a).Some? && NumberOf(b).Some? then NumberOf(a) == NumberOf(b) else a == b
  }

  /** `d.get(k)`: the value under the first key equal to `k`. */
  function Get(d: Entries, k: Value): Option<Value> {
    if |d| == 0 then None
    else if SameKey(d[0].0, k) then Some(d[0].1)
    else Get(d[1..], k)
  }

  /**
   * Lookup finds a value exactly when some key equals `k`, and then it is
   * the value of the first such key.
   */
  lemma {:induction false} GetFirstMatch(d: Entries, k: Value)
    ensures Get(d, k).None? <==> forall i :: 0 <= i < |d| ==> !SameKey(d[i].0, k)
    ensures Get(d, k).Some? ==> exists i :: && 0 <= i < |d| && SameKey(d[i].0, k) && d[i].1 == Get(d, k).value
                                           && forall j :: 0 <= j < i ==> !SameKey(d[j].0, k)
  {
    if |d| > 0 && !SameKey(d[0].0, k) {
      GetFirstMatch(d[1..], k);
      assert forall i :: 0 < i < |d| ==> d[1..][i - 1] == d[i];
      if Get(d, k).Some? {
        var i :| && 0 <= i < |d[1..]| && SameKey(d[1..][i].0, k) && d[1..][i].1 == Get(d, k).value
                 && forall j :: 0 <= j < i ==> !SameKey(d[1..][j].0, k);
        assert forall j :: 0 <= j < i + 1 ==> !SameKey(d[j].0, k);
      }
    }
  }

  predicate HasKey(d: Entries, k: Value) {
    Get(d, k).Some?
  }

  /** No two entries have equal keys, as in every Python dict. */
  predicate UniqueKeys(d: Entries) {
    |d| == 0 || (!HasKey(d[1..], d[0].0) && UniqueKeys(d[1..]))
  }

  /**
   * `d[k] = v`: an entry whose key equals `k` keeps its position and its
   * original key object and takes the new value; otherwise the pair is appended.
   */
  function Put(d: Entries, k: Value, v: Value): Entries {
    if |d| == 0 then [(k, v)]
    else if SameKey(d[0].0, k) then [(d[0].0, v)] + d[1..]
    else [d[0]] + Put(d[1..], k, v)
  }

  /**
   * Assigns `ks[i] = vs[i]` in order, as a dict comprehension does: the
   * entries already there keep their keys and their places, and anything
   * new comes after them.
   */
  function PutAll(d: Entries, ks: seq<Value>, vs: seq<Value>): (r: Entries)
    requires |ks| == |vs|
    ensures |d| <= |r|
    ensures forall i :: 0 <= i < |d| ==> r[i].0 == d[i].0
    decreases |ks|
  {
    if |ks| == 0 then d
    else
      PutKeepsKeys(d, ks[0], vs[0]);
      PutAll(Put(d, ks[0], vs[0]), ks[1..], vs[1..])
  }

  /** Assignment leaves every existing entry's key where it was. */
  lemma {:induction false} PutKeepsKeys(d: Entries, k: Value, v: Value)
    ensures |d| <= |Put(d, k, v)|
    ensures forall i :: 0 <= i < |d| ==> Put(d, k, v)[i].0 == d[i].0
  {
    if |d| > 0 && !SameKey(d[0].0, k) {
      PutKeepsKeys(d[1..], k, v);
    }
  }

  /** `ks[i]` is the last key equal to itself: no later key equals it. */
  predicate LastOccurrence(ks: seq<Value>, i: int)
    requires 0 <= i < |ks|
  {
    forall j :: i < j < |ks| ==> !SameKey(ks[j], ks[i])
  }

  /** Lookup does not distinguish equal keys (`d[1]` finds the entry `1.0`). */
  lemma {:induction false} GetSameKey(d: Entries, a: Value, b: Value)
    requires SameKey(a, b)
    ensures Get(d, a) == Get(d, b)
  {
    if |d| > 0 {
      GetSameKey(d[1..], a, b);
    }
  }

  /** After `d[k] = v`, `k` maps to `v` and every key not equal to `k` keeps its value. */
  lemma {:induction false} PutGet(d: Entries, k: Value, v: Value, k': Value)
    ensures SameKey(k', k) ==> Get(Put(d, k, v), k') == Some(v)
    ensures !SameKey(k', k) ==> Get(Put(d, k, v), k') == Get(d, k')
  {
    if |d| > 0 {
      var p := Put(d, k, v);
      if SameKey(d[0].0, k) {
        assert p[0] == (d[0].0, v) && p[1..] == d[1..];
        SameKeyRelation(d[0].0, k, k');
      } else {
        assert p[0] == d[0] && p[1..] == Put(d[1..], k, v);
        PutGet(d[1..], k, v, k');
      }
    }
  }

  /** Key equality is symmetric and transitive; this instance is what lookups after a store need. */
  lemma SameKeyRelation(a: Value, k: Value, k': Value)
    requires SameKey(a, k)
    ensures SameKey(a, k') <==> SameKey(k', k)
  {
  }

  /** Assigning an existing key keeps the size; a new key is appended at the end. */
  lemma {:induction false} PutSize(d: Entries, k: Value, v: Value)
    ensures HasKey(d, k) ==> |Put(d, k, v)| == |d|
    ensures !HasKey(d, k) ==> Put(d, k, v) == d + [(k, v)]
  {
    if |d| > 0 && !SameKey(d[0].0, k) {
      PutSize(d[1..], k, v);
    }
  }

  /** Assignment keeps a dict's keys pairwise distinct. */
  lemma {:induction false} PutUnique(d: Entries, k: Value, v: Value)
    requires UniqueKeys(d)
    ensures UniqueKeys(Put(d, k, v))
  {
    if |d| > 0 {
      if SameKey(d[0].0, k) {
        assert Put(d, k, v)[1..] == d[1..];
      } else {
        PutUnique(d[1..], k, v);
        PutGet(d[1..], k, v, d[0].0);
        assert Put(d, k, v)[1..] == Put(d[1..], k, v);
      }
    }
  }

  /** A comprehension over `n` keys adds at most `n` entries. */
  lemma {:induction false} PutAllSize(d: Entries, ks: seq<Value>, vs: seq<Value>)
    requires |ks| == |vs|
    ensures |PutAll(d, ks, vs)| <= |d| + |ks|
    decreases |ks|
  {
    if |ks| > 0 {
      PutSize(d, ks[0], vs[0]);
      PutAllSize(Put(d, ks[0], vs[0]), ks[1..], vs[1..]);
    }
  }

  /** A comprehension keeps keys pairwise distinct. */
  lemma {:induction false} PutAllUnique(d: Entries, ks: seq<Value>, vs: seq<Value>)
    requires |ks| == |vs|
    requires UniqueKeys(d)
    ensures UniqueKeys(PutAll(d, ks, vs))
    decreases |ks|
  {
    if |ks| > 0 {
      PutUnique(d, ks[0], vs[0]);
      PutAllUnique(Put(d, ks[0], vs[0]), ks[1..], vs[1..]);
    }
  }

  /** A comprehension never touches a key that none of its keys equals. */
  lemma {:induction false} PutAllKeepsOthers(d: Entries, ks: seq<Value>, vs: seq<Value>, k: Value)
    requires |ks| == |vs|
    requires forall i :: 0 <= i < |ks| ==> !SameKey(k, ks[i])
    ensures Get(PutAll(d, ks, vs), k) == Get(d, k)
    decreases |ks|
  {
    if |ks| > 0 {
      PutGet(d, ks[0], vs[0], k);
      assert forall i :: 0 <= i < |ks[1..]| ==> ks[1..][i] == ks[i + 1];
      PutAllKeepsOthers(Put(d, ks[0], vs[0]), ks[1..], vs[1..], k);
    }
  }

  /** Each key ends up holding the value of its last occurrence. */
  lemma {:induction false} PutAllLast(d: Entries, ks: seq<Value>, vs: seq<Value>, i: int)
    requires |ks| == |vs| && 0 <= i < |ks|
    requires LastOccurrence(ks, i)
    ensures Get(PutAll(d, ks, vs), ks[i]) == Some(vs[i])
    decreases |ks|
  {
    var d' := Put(d, ks[0], vs[0]);
    if i == 0 {
      PutGet(d, ks[0], vs[0], ks[0]);
      forall j | 0 <= j < |ks[1..]|
        ensures !SameKey(ks[0], ks[1..][j])
      {
        assert ks[1..][j] == ks[j + 1];
      }
      PutAllKeepsOthers(d', ks[1..], vs[1..], ks[0]);
    } else {
      forall j | i - 1 < j < |ks[1..]|
        ensures !SameKey(ks[1..][j], ks[1..][i - 1])
      {
        assert ks[1..][j] == ks[j + 1];
      }
      PutAllLast(d', ks[1..], vs[1..], i - 1);
    }
  }

  /** The dict built from pairwise distinct new keys holds exactly those pairs, in order. */
  lemma {:induction false} PutAllDistinct(d: Entries, ks: seq<Value>, vs: seq<Value>)
    requires |ks| == |vs|
    requires forall i, j :: 0 <= i < j < |ks| ==> !SameKey(ks[i], ks[j])
    requires forall i :: 0 <= i < |ks| ==> !HasKey(d, ks[i])
    ensures PutAll(d, ks, vs) == d + Zip(ks, vs)
    decreases |ks|
  {
    if |ks| > 0 {
      var z := Zip(ks[1..], vs[1..]);
      assert Zip(ks, vs) == [(ks[0], vs[0])] + z;
      assert d + ([(ks[0], vs[0])] + z) == (d + [(ks[0], vs[0])]) + z;
      DistinctTail(d, ks, vs);
      PutAllDistinct(Put(d, ks[0], vs[0]), ks[1..], vs[1..]);
    }
  }

  /** After the first key is added, the remaining keys still meet the requirements of `PutAllDistinct`. */
  lemma DistinctTail(d: Entries, ks: seq<Value>, vs: seq<Value>)
    requires |ks| == |vs| > 0
    requires forall i, j :: 0 <= i < j < |ks| ==> !SameKey(ks[i], ks[j])
    requires forall i :: 0 <= i < |ks| ==> !HasKey(d, ks[i])
    ensures Put(d, ks[0], vs[0]) == d + [(ks[0], vs[0])]
    ensures forall i :: 0 <= i < |ks[1..]| ==> !HasKey(Put(d, ks[0], vs[0]), ks[1..][i])
    ensures forall i, j :: 0 <= i < j < |ks[1..]| ==> !SameKey(ks[1..][i], ks[1..][j])
  {
    var d' := Put(d, ks[0], vs[0]);
    var rest := ks[1..];
    PutSize(d, ks[0], vs[0]);
    forall i | 0 <= i < |rest|
      ensures !HasKey(d', rest[i])
    {
      assert rest[i] == ks[i + 1];
      PutGet(d, ks[0], vs[0], ks[i + 1]);
    }
  }

  /** The pairs `(ks[i], vs[i])` in order. */
  function Zip(ks: seq<Value>, vs: seq<Value>): (z: Entries)
    requires |ks| == |vs|
    ensures |z| == |ks| && forall i :: 0 <= i < |ks| ==> z[i] == (ks[i], vs[i])
  {
    if |ks| == 0 then [] else [(ks[0], vs[0])] + Zip(ks[1..], vs[1..])
  }

  /** The keys of a dict in insertion order, as `list(d.keys())` gives them. */
  function Keys(d: Entries): (ks: seq<Value>)
    ensures |ks| == |d| && forall i :: 0 <= i < |d| ==> ks[i] == d[i].0
  {
    seq(|d|, i requires 0 <= i < |d| => d[i].0)
  }

  /** The string keys of a dict's entries. */
  function StringKeys(d: Entries): set<string> {
    set i | 0 <= i < |d| && d[i].0.VStr? :: d[i].0.s
  }

  predicate AllStringKeys(d: Entries) {
    forall i :: 0 <= i < |d| ==> d[i].0.VStr?
  }

  /**
   * `f(**v)`: unpacking a value into keyword arguments. Anything but a dict
   * whose keys are all strings raises `TypeError`; in particular `None` does.
   */
  function Kwargs(v: Value): (r: Flow<map<string, Value>>)
    ensures r.Normal? <==> v.VDict? && AllStringKeys(v.entries)
    ensures r.Normal? ==> r.value.Keys == StringKeys(v.entries)
    ensures r.Normal? ==> forall name :: name in r.value ==> Get(v.entries, VStr(name)) == Some(r.value[name])
    ensures r.Raised? ==> r.exc == TypeError
  {
    match v
    case VDict(d) =>
      if AllStringKeys(d) then
        Normal(map name | name in StringKeys(d) :: KwargValue(d, name))
      else Raised(TypeError)
    case _ => Raised(TypeError)
  }

  lemma {:induction false} KeyFound(d: Entries, k: Value)
    requires exists i :: 0 <= i < |d| && d[i].0 == k
    ensures HasKey(d, k)
  {
    if d[0].0 != k {
      var i :| 0 <= i < |d| && d[i].0 == k;
      assert d[1..][i - 1] == d[i];
      KeyFound(d[1..], k);
    }
  }

  function KwargValue(d: Entries, name: string): (v: Value)
    requires name in StringKeys(d)
    ensures Get(d, VStr(name)) == Some(v)
  {
    KeyFound(d, VStr(name));
    Get(d, VStr(name)).value
  }
  /** A key no earlier key equals is found at its own entry. */
  lemma {:induction false} GetAt(d: Entries, i: int)
    requires 0 <= i < |d|
    requires forall j :: 0 <= j < i ==> !SameKey(d[j].0, d[i].0)
    ensures Get(d, d[i].0) == Some(d[i].1)
  {
    if i > 0 {
      forall j | 0 <= j < i - 1
        ensures !SameKey(d[1..][j].0, d[1..][i - 1].0)
      {
        assert d[1..][j] == d[j + 1];
      }
      GetAt(d[1..], i - 1);
    }
  }

  /** The name-to-value map of a dict whose keys are all strings, the first entry of a name winning. */
  function StringMap(d: Entries): map<string, Value>
    requires AllStringKeys(d)
  {
    if |d| == 0 then map[]
    else
      assert forall i :: 0 <= i < |d[1..]| ==> d[1..][i] == d[i + 1];
      StringMap(d[1..])[d[0].0.s := d[0].1]
  }

  lemma {:induction false} StringMapKeys(d: Entries)
    requires AllStringKeys(d)
    ensures StringMap(d).Keys == StringKeys(d)
  {
    if |d| > 0 {
      assert forall i :: 0 <= i < |d[1..]| ==> d[1..][i] == d[i + 1];
      StringMapKeys(d[1..]);
      forall n | n in StringKeys(d)
        ensures n in StringMap(d)
      {
        var i :| 0 <= i < |d| && d[i].0.VStr? && d[i].0.s == n;
        if i > 0 {
          assert n in StringKeys(d[1..]);
        }
      }
      forall n | n in StringMap(d)
        ensures n in StringKeys(d)
      {
        if n != d[0].0.s {
          var i :| 0 <= i < |d[1..]| && d[1..][i].0.VStr? && d[1..][i].0.s == n;
          assert d[i + 1].0.s == n;
        }
      }
    }
  }

  lemma {:induction false} StringMapValues(d: Entries)
    requires AllStringKeys(d)
    ensures forall n :: n in StringMap(d) ==> Get(d, VStr(n)) == Some(StringMap(d)[n])
  {
    if |d| > 0 {
      assert forall i :: 0 <= i < |d[1..]| ==> d[1..][i] == d[i + 1];
      StringMapValues(d[1..]);
    }
  }

  /** A dict whose keys are all strings unpacks into its name-to-value map. */
  lemma KwargsOfStrings(d: Entries)
    requires AllStringKeys(d)
    ensures Kwargs(VDict(d)) == Normal(StringMap(d))
  {
    var kw := Kwargs(VDict(d)).value;
    StringMapKeys(d);
    StringMapValues(d);
    assert kw.Keys == StringMap(d).Keys;
    forall n | n in kw
      ensures kw[n] == StringMap(d)[n]
    {
      assert Get(d, VStr(n)) == Some(kw[n]);
    }
    assert kw == StringMap(d);
  }
}
