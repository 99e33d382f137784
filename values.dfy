/**
 * Python values as the backend passes them around: JSON-like values (request
 * bodies, stored JSON columns, DataFrame cells) and dictionaries, which keep
 * their keys in insertion order.
 */
module Values {
  import opened Wrappers

  /** `Null` stands for Python's `None` and for pandas' NaN. */
  datatype Value =
    | Null
    | Bool(b: bool)
    | Num(x: real)
    | Str(s: string)
    | List(items: seq<Value>)
    | Object(fields: seq<(string, Value)>)

  /** Python truthiness. */
  predicate Truthy(v: Value) {
    match v
    case Null => false
    case Bool(b) => b
    case Num(x) => x != 0.0
    case Str(s) => s != ""
    case List(items) => items != []
    case Object(fields) => fields != []
  }

  /** An HTTP error answered by a route: its status code and its `detail` text. */
  datatype ApiError = ApiError(status: int, detail: string)

  /** What the framework answers when a request breaks its declared types or bounds. */
  const Unprocessable := ApiError(422, "Unprocessable Entity")

  predicate Distinct<T(==)>(s: seq<T>) {
    forall i, j :: 0 <= i < j < |s| ==> s[i] != s[j]
  }

  /** A sequence without repetitions has as many elements as its set. */
  lemma {:induction false} DistinctCard<T>(s: seq<T>)
    requires Distinct(s)
    ensures |set x | x in s| == |s|
  {
    if s != [] {
      var t := s[1..];
      assert Distinct(t) by {
        forall i, j | 0 <= i < j < |t|
          ensures t[i] != t[j]
        {
          assert t[i] == s[i + 1] && t[j] == s[j + 1];
        }
      }
      DistinctCard(t);
      assert s[0] !in t by {
        forall i | 0 <= i < |t|
          ensures t[i] != s[0]
        {
          assert t[i] == s[i + 1];
        }
      }
      assert (set x | x in s) == (set x | x in t) + {s[0]} by {
        assert s == [s[0]] + t;
      }
    }
  }

  /** A Python `dict`: its entries in insertion order. */
  type Dict<V> = seq<(string, V)>

  function Keys<V>(d: Dict<V>): (ks: seq<string>)
    ensures |ks| == |d|
    ensures forall i :: 0 <= i < |d| ==> ks[i] == d[i].0
  {
    seq(|d|, i requires 0 <= i < |d| => d[i].0)
  }

  /** The position of the first entry with key `k`, or `|d|` when there is none. */
  function KeyIndex<V>(d: Dict<V>, k: string): (i: nat)
    ensures i <= |d|
    ensures i < |d| ==> d[i].0 == k
    ensures forall j :: 0 <= j < i ==> d[j].0 != k
  {
    if d == [] then 0
    else if d[0].0 == k then 0
    else
      var i := 1 + KeyIndex(d[1..], k);
      assert forall j :: 1 <= j < i ==> d[j] == d[1..][j - 1];
      i
  }

  /** The first-occurrence property pins the position down. */
  lemma KeyIndexUnique<V>(d: Dict<V>, k: string, i: nat)
    requires i <= |d| && (i < |d| ==> d[i].0 == k)
    requires forall j :: 0 <= j < i ==> d[j].0 != k
    ensures KeyIndex(d, k) == i
  {
  }

  lemma KeyIndexIn<V>(d: Dict<V>, k: string)
    ensures KeyIndex(d, k) < |d| <==> k in Keys(d)
  {
    if k in Keys(d) {
      var j :| 0 <= j < |d| && Keys(d)[j] == k;
      assert d[j].0 == k;
    }
    if KeyIndex(d, k) < |d| {
      assert Keys(d)[KeyIndex(d, k)] == k;
    }
  }

  /** `d.get(k)`: the value of the entry with key `k`. */
  function Get<V>(d: Dict<V>, k: string): (r: Option<V>)
    ensures r.Some? <==> k in Keys(d)
  {
    var i := KeyIndex(d, k);
    KeyIndexIn(d, k);
    if i < |d| then Some(d[i].1) else None
  }

  /** An entry whose key no earlier entry has is the one `get` finds. */
  lemma GetAt<V>(d: Dict<V>, i: nat)
    requires i < |d|
    requires forall j :: 0 <= j < i ==> d[j].0 != d[i].0
    ensures Get(d, d[i].0) == Some(d[i].1)
  {
    KeyIndexUnique(d, d[i].0, i);
  }

  /** `d[k] = v`: an existing key keeps its place, a new key goes last. */
  function Put<V>(d: Dict<V>, k: string, v: V): (r: Dict<V>)
    ensures Get(r, k) == Some(v)
    ensures forall k' :: k' != k ==> Get(r, k') == Get(d, k')
    ensures k in Keys(d) ==> Keys(r) == Keys(d)
    ensures k !in Keys(d) ==> Keys(r) == Keys(d) + [k]
  {
    var i := KeyIndex(d, k);
    KeyIndexIn(d, k);
    var r := if i < |d| then d[i := (k, v)] else d + [(k, v)];
    KeyIndexUnique(r, k, i);
    forall k' | k' != k
      ensures Get(r, k') == Get(d, k')
    {
      KeyIndexOther(d, k, v, k');
    }
    r
  }

  lemma KeyIndexOther<V>(d: Dict<V>, k: string, v: V, k': string)
    requires k' != k
    ensures var i := KeyIndex(d, k);
      var r := if i < |d| then d[i := (k, v)] else d + [(k, v)];
      var m := KeyIndex(d, k');
      && (KeyIndex(r, k') < |r| <==> m < |d|)
      && (m < |d| ==> KeyIndex(r, k') == m && r[m] == d[m])
  {
    var i := KeyIndex(d, k);
    var r := if i < |d| then d[i := (k, v)] else d + [(k, v)];
    var m := KeyIndex(d, k');
    assert forall j :: 0 <= j < |r| ==> (r[j].0 == k || (j < |d| && r[j] == d[j]));
    if m < |d| {
      assert r[m] == d[m];
      KeyIndexUnique(r, k', m);
    } else {
      assert forall j :: 0 <= j < |r| ==> r[j].0 != k';
      KeyIndexUnique(r, k', |r|);
    }
  }

  /** A new key is appended with its value. */
  lemma PutNew<V>(d: Dict<V>, k: string, v: V)
    requires k !in Keys(d)
    ensures Put(d, k, v) == d + [(k, v)]
  {
    KeyIndexIn(d, k);
  }

  /** In a dictionary with distinct keys, an existing key is overwritten in place. */
  lemma PutExisting<V>(d: Dict<V>, k: string, v: V, i: nat)
    requires Distinct(Keys(d)) && i < |d| && d[i].0 == k
    ensures Put(d, k, v) == d[i := (k, v)]
  {
    assert forall j :: 0 <= j < i ==> d[j].0 != k by {
      forall j | 0 <= j < i
        ensures d[j].0 != k
      {
        assert Keys(d)[j] != Keys(d)[i];
      }
    }
    KeyIndexUnique(d, k, i);
  }

  /** Assigning a key keeps a dictionary's keys distinct. */
  lemma PutDistinct<V>(d: Dict<V>, k: string, v: V)
    requires Distinct(Keys(d))
    ensures Distinct(Keys(Put(d, k, v)))
  {
  }

  /** `d.update(e)`: the entries of `e` put into `d` one after the other. */
  function Update<V>(d: Dict<V>, e: Dict<V>): Dict<V>
    decreases |e|
  {
    if e == [] then d else Update(Put(d, e[0].0, e[0].1), e[1..])
  }

  /** Looking a key up in a non-empty dictionary: its first entry, or the rest. */
  lemma GetCons<V>(e: Dict<V>, k: string)
    requires e != []
    ensures Get(e, k) == if e[0].0 == k then Some(e[0].1) else Get(e[1..], k)
    ensures k in Keys(e) <==> k == e[0].0 || k in Keys(e[1..])
  {
    KeyIndexIn(e, k);
    KeyIndexIn(e[1..], k);
  }

  lemma DistinctTail<V>(e: Dict<V>)
    requires e != [] && Distinct(Keys(e))
    ensures Distinct(Keys(e[1..])) && e[0].0 !in Keys(e[1..])
  {
    assert forall j :: 0 <= j < |e| - 1 ==> Keys(e[1..])[j] == Keys(e)[j + 1];
  }

  /** After `d.update(e)`, a key of `e` has its value from `e`; any other key keeps its value from `d`. */
  lemma {:induction false} UpdateGet<V>(d: Dict<V>, e: Dict<V>, k: string)
    requires Distinct(Keys(e))
    ensures Get(Update(d, e), k) == if k in Keys(e) then Get(e, k) else Get(d, k)
    decreases |e|
  {
    if e != [] {
      GetCons(e, k);
      DistinctTail(e);
      UpdateGet(Put(d, e[0].0, e[0].1), e[1..], k);
    }
  }

  /** The keys after `d.update(e)`: those of `d` first, in their places, and those of `e`. */
  lemma {:induction false} UpdateKeys<V>(d: Dict<V>, e: Dict<V>)
    ensures forall k :: k in Keys(Update(d, e)) <==> k in Keys(d) || k in Keys(e)
    ensures |d| <= |Update(d, e)|
    ensures forall i :: 0 <= i < |d| ==> Update(d, e)[i].0 == d[i].0
    decreases |e|
  {
    if e != [] {
      var k0 := e[0].0;
      var d' := Put(d, k0, e[0].1);
      UpdateKeys(d', e[1..]);
      forall k
        ensures k in Keys(e) <==> k == k0 || k in Keys(e[1..])
      {
        GetCons(e, k);
      }
      assert forall i :: 0 <= i < |d| ==> d'[i].0 == d[i].0 by {
        assert forall i :: 0 <= i < |d| ==> Keys(d')[i] == Keys(d)[i];
      }
    }
  }
}
