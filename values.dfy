/** JSON-like values as they appear in node configurations, and plain
    JavaScript objects as ordered lists of key/value entries (objects keep
    their keys in insertion order, which `Object.keys` reports). */
module Values {
  import opened Wrappers

  datatype Value =
    | Null
    | Bool(b: bool)
    | Num(n: real)
    | Str(s: string)
    | Arr(items: seq<Value>)
    | Object(entries: seq<(string, Value)>)

  /** An object: entries in key-insertion order. */
  type Fields = seq<(string, Value)>

  /** JavaScript truthiness: `null`, `false`, `0` and `""` are falsy. */
  predicate Truthy(v: Value) {
    match v
    case Null => false
    case Bool(b) => b
    case Num(n) => n != 0.0
    case Str(s) => s != ""
    case Arr(_) => true
    case Object(_) => true
  }

  /** Truthiness of a lookup result; a missing key reads as `undefined`, which is falsy. */
  predicate TruthyOpt(v: Option<Value>) {
    v.Some? && Truthy(v.value)
  }

  /** `Object.keys(o)`. */
  function Keys(o: Fields): (ks: seq<string>)
    ensures |ks| == |o|
    ensures forall i :: 0 <= i < |o| ==> ks[i] == o[i].0
  {
    if o == [] then [] else [o[0].0] + Keys(o[1..])
  }

  /** No key occurs twice, as in every JavaScript object. */
  predicate UniqueKeys(o: Fields) {
    forall i, j :: 0 <= i < j < |o| ==> o[i].0 != o[j].0
  }

  /** `o[k]`: the value stored under `k`, or None for `undefined`. */
  function Get(o: Fields, k: string): (r: Option<Value>)
    ensures r.None? <==> k !in Keys(o)
    ensures r.Some? ==> (k, r.value) in o
  {
    if o == [] then None
    else if o[0].0 == k then Some(o[0].1)
    else Get(o[1..], k)
  }

  /** In an object with unique keys, each entry is what a lookup of its key returns. */
  lemma {:induction false} GetEntry(o: Fields, i: nat)
    requires UniqueKeys(o) && i < |o|
    ensures Get(o, o[i].0) == Some(o[i].1)
  {
    if i > 0 {
      assert UniqueKeys(o[1..]) by {
        forall a, b | 0 <= a < b < |o[1..]| ensures o[1..][a].0 != o[1..][b].0 {
          assert o[1..][a] == o[a + 1] && o[1..][b] == o[b + 1];
        }
      }
      assert o[0].0 != o[i].0;
      GetEntry(o[1..], i - 1);
      assert o[1..][i - 1] == o[i];
    }
  }

  /** `{ ...o, [k]: v }`: an existing key keeps its place and takes the new
      value; a new key is appended. */
  function Set(o: Fields, k: string, v: Value): Fields {
    if o == [] then [(k, v)]
    else if o[0].0 == k then [(k, v)] + o[1..]
    else [o[0]] + Set(o[1..], k, v)
  }

  /** After the update `k` reads `v` and every other key reads as before. */
  lemma {:induction false} SetGet(o: Fields, k: string, v: Value, k': string)
    ensures Get(Set(o, k, v), k') == if k' == k then Some(v) else Get(o, k')
  {
    if o != [] && o[0].0 != k {
      SetGet(o[1..], k, v, k');
      assert Set(o, k, v)[1..] == Set(o[1..], k, v);
    } else if o != [] {
      assert Set(o, k, v)[1..] == o[1..];
    }
  }

  /** The key order is kept; a new key goes last. */
  lemma {:induction false} SetKeys(o: Fields, k: string, v: Value)
    ensures Keys(Set(o, k, v)) == if k in Keys(o) then Keys(o) else Keys(o) + [k]
  {
    if o != [] {
      if o[0].0 == k {
        assert Set(o, k, v)[1..] == o[1..];
      } else {
        SetKeys(o[1..], k, v);
        SetKeysBehind(o, k, v);
      }
    }
  }

  /** The step of SetKeys for a key that is not the first. */
  lemma SetKeysBehind(o: Fields, k: string, v: Value)
    requires o != [] && o[0].0 != k
    requires Keys(Set(o[1..], k, v)) == if k in Keys(o[1..]) then Keys(o[1..]) else Keys(o[1..]) + [k]
    ensures Keys(Set(o, k, v)) == if k in Keys(o) then Keys(o) else Keys(o) + [k]
  {
    var r, rest := Set(o, k, v), Set(o[1..], k, v);
    var head, ks := o[0].0, Keys(o[1..]);
    assert r[1..] == rest;
    assert Keys(r) == [head] + Keys(rest);
    assert Keys(o) == [head] + ks;
    if k in ks {
      assert k in Keys(o);
    } else {
      assert k !in Keys(o);
      assert [head] + (ks + [k]) == ([head] + ks) + [k];
    }
  }

  /** Setting a key keeps the keys of an object unique. */
  lemma SetKeepsUniqueKeys(o: Fields, k: string, v: Value)
    requires UniqueKeys(o)
    ensures UniqueKeys(Set(o, k, v))
  {
    var r := Set(o, k, v);
    SetKeys(o, k, v);
    var ko, kr := Keys(o), Keys(r);
    forall i, j | 0 <= i < j < |r| ensures r[i].0 != r[j].0 {
      assert kr[i] == r[i].0 && kr[j] == r[j].0;
      if k !in ko && j == |o| {
        assert kr[i] == ko[i];
      } else {
        assert kr[i] == ko[i] && kr[j] == ko[j];
        assert ko[i] == o[i].0 && ko[j] == o[j].0;
      }
    }
  }
}
