/** JavaScript objects and `Map`s keyed by strings, which remember the order in which
    their keys were first inserted: a list of (key, value) entries with distinct keys. */
module OrderedMap {
  import opened Wrappers

  predicate UniqueKeys<V>(m: seq<(string, V)>) {
    forall i, j :: 0 <= i < j < |m| ==> m[i].0 != m[j].0
  }

  type OMap<V> = m: seq<(string, V)> | UniqueKeys(m) witness []

  /** `Object.keys(m)` / `[...m.keys()]`: keys in insertion order. */
  function Keys<V>(m: seq<(string, V)>): (ks: seq<string>)
    ensures |ks| == |m|
    ensures forall i :: 0 <= i < |m| ==> ks[i] == m[i].0
  {
    seq(|m|, i requires 0 <= i < |m| => m[i].0)
  }

  /** `m[k]` / `m.get(k)`. */
  function Get<V>(m: seq<(string, V)>, k: string): (r: Option<V>)
    ensures r.None? <==> forall i :: 0 <= i < |m| ==> m[i].0 != k
    ensures r.Some? ==> exists i :: 0 <= i < |m| && m[i] == (k, r.value)
    decreases |m|
  {
    if |m| == 0 then None
    else if m[0].0 == k then Some(m[0].1)
    else
      var r := Get(m[1..], k);
      assert forall i :: 1 <= i < |m| ==> m[i] == m[1..][i - 1];
      r
  }

  lemma GetCons<V>(e: (string, V), rest: seq<(string, V)>, k: string)
    ensures Get([e] + rest, k) == if e.0 == k then Some(e.1) else Get(rest, k)
  {
    assert ([e] + rest)[1..] == rest;
  }

  /** With distinct keys, the entry at a position is what a lookup of its key finds. */
  lemma GetAt<V>(m: OMap<V>, i: int)
    requires 0 <= i < |m|
    ensures Get(m, m[i].0) == Some(m[i].1)
  {
    var r := Get(m, m[i].0);
    var j :| 0 <= j < |m| && m[j] == (m[i].0, r.value);
  }

  predicate HasKey<V>(m: seq<(string, V)>, k: string) {
    Get(m, k).Some?
  }

  /** `m[k] = v` / `m.set(k, v)`: an existing key keeps its position, a new key goes last. */
  function Put<V>(m: OMap<V>, k: string, v: V): (r: OMap<V>)
    ensures Get(r, k) == Some(v)
    ensures forall k' :: k' != k ==> Get(r, k') == Get(m, k')
    ensures HasKey(m, k) ==> Keys(r) == Keys(m)
    ensures !HasKey(m, k) ==> Keys(r) == Keys(m) + [k]
    decreases |m|
  {
    if |m| == 0 then [(k, v)]
    else if m[0].0 == k then
      PutHead(m, k, v);
      [(k, v)] + m[1..]
    else
      var rest := Put(m[1..], k, v);
      PutTail(m, k, v, rest);
      [m[0]] + rest
  }

  lemma PutHead<V>(m: OMap<V>, k: string, v: V)
    requires |m| > 0 && m[0].0 == k
    ensures UniqueKeys([(k, v)] + m[1..])
    ensures Get([(k, v)] + m[1..], k) == Some(v)
    ensures forall k' :: k' != k ==> Get([(k, v)] + m[1..], k') == Get(m, k')
    ensures Keys([(k, v)] + m[1..]) == Keys(m)
  {
    var r := [(k, v)] + m[1..];
    assert forall i :: 1 <= i < |m| ==> r[i] == m[i];
    forall k' | k' != k ensures Get(r, k') == Get(m, k') {
      GetCons((k, v), m[1..], k');
      GetCons(m[0], m[1..], k');
      assert m == [m[0]] + m[1..];
    }
  }

  lemma PutTail<V>(m: OMap<V>, k: string, v: V, rest: OMap<V>)
    requires |m| > 0 && m[0].0 != k
    requires Get(rest, k) == Some(v)
    requires forall k' :: k' != k ==> Get(rest, k') == Get(m[1..], k')
    requires HasKey(m[1..], k) ==> Keys(rest) == Keys(m[1..])
    requires !HasKey(m[1..], k) ==> Keys(rest) == Keys(m[1..]) + [k]
    ensures UniqueKeys([m[0]] + rest)
    ensures Get([m[0]] + rest, k) == Some(v)
    ensures forall k' :: k' != k ==> Get([m[0]] + rest, k') == Get(m, k')
    ensures HasKey(m, k) ==> Keys([m[0]] + rest) == Keys(m)
    ensures !HasKey(m, k) ==> Keys([m[0]] + rest) == Keys(m) + [k]
  {
    ConsFresh(m, rest, k);
    assert m == [m[0]] + m[1..];
    forall k' ensures Get([m[0]] + rest, k') == if k' == k then Some(v) else Get(m, k') {
      GetCons(m[0], rest, k');
      GetCons(m[0], m[1..], k');
    }
    PutTailKeys(m, k, rest);
  }

  lemma PutTailKeys<V>(m: seq<(string, V)>, k: string, rest: seq<(string, V)>)
    requires |m| > 0 && m[0].0 != k
    requires HasKey(m[1..], k) ==> Keys(rest) == Keys(m[1..])
    requires !HasKey(m[1..], k) ==> Keys(rest) == Keys(m[1..]) + [k]
    ensures HasKey(m, k) ==> Keys([m[0]] + rest) == Keys(m)
    ensures !HasKey(m, k) ==> Keys([m[0]] + rest) == Keys(m) + [k]
  {
    var tail := m[1..];
    assert m == [m[0]] + tail;
    GetCons(m[0], tail, k);
    KeysCons(m[0], rest);
    KeysCons(m[0], tail);
    if !HasKey(tail, k) {
      ConsSnoc(m[0].0, Keys(tail), k);
    }
  }

  lemma ConsSnoc<T>(h: T, s: seq<T>, x: T)
    ensures [h] + (s + [x]) == ([h] + s) + [x]
  {
  }

  /** The head's key does not come back in a tail that only changed key `k`. */
  lemma ConsFresh<V>(m: OMap<V>, rest: OMap<V>, k: string)
    requires |m| > 0 && m[0].0 != k
    requires forall k' :: k' != k ==> Get(rest, k') == Get(m[1..], k')
    ensures UniqueKeys([m[0]] + rest)
  {
    assert Get(m[1..], m[0].0).None?;
    assert Get(rest, m[0].0).None?;
  }

  lemma KeysCons<V>(e: (string, V), rest: seq<(string, V)>)
    ensures Keys([e] + rest) == [e.0] + Keys(rest)
  {
  }

  /** `{...m, ...u}` / `Object.assign({}, m, u)`: each entry of `u` put in order. */
  function Assign<V>(m: OMap<V>, u: OMap<V>): (r: OMap<V>)
    ensures forall k :: Get(r, k) == if HasKey(u, k) then Get(u, k) else Get(m, k)
    decreases |u|
  {
    if |u| == 0 then m
    else
      var r := Assign(Put(m, u[0].0, u[0].1), u[1..]);
      GetHeadAll(u);
      r
  }

  lemma GetHeadAll<V>(u: seq<(string, V)>)
    requires |u| > 0
    ensures forall k :: Get(u, k) == if k == u[0].0 then Some(u[0].1) else Get(u[1..], k)
  {
    assert u == [u[0]] + u[1..];
    forall k ensures Get(u, k) == if k == u[0].0 then Some(u[0].1) else Get(u[1..], k) {
      GetCons(u[0], u[1..], k);
    }
  }

  /** Reading after a write: the written key gives the new value, any other key what
      it gave before. */
  lemma PutGet<V>(m: OMap<V>, k: string, v: V, id: string)
    ensures Get(Put(m, k, v), id) == if id == k then Some(v) else Get(m, id)
  {
  }

  /** The value of the last of the first `n` pairs with key `id`. */
  function LastValue<V>(kvs: seq<(string, V)>, id: string, n: nat): Option<V>
    requires n <= |kvs|
    decreases n
  {
    if n == 0 then None
    else if kvs[n - 1].0 == id then Some(kvs[n - 1].1)
    else LastValue(kvs, id, n - 1)
  }

  /** The first `n` pairs put, in order, into an empty map: a later pair replaces an
      earlier one with the same key but keeps its position, so reading a key gives the
      last value put under it. */
  function PutAll<V>(kvs: seq<(string, V)>, n: nat): (r: OMap<V>)
    requires n <= |kvs|
    ensures forall id :: Get(r, id) == LastValue(kvs, id, n)
    decreases n
  {
    if n == 0 then [] else Put(PutAll(kvs, n - 1), kvs[n - 1].0, kvs[n - 1].1)
  }

  /** There is no such value iff none of the first `n` pairs has the key. */
  lemma {:induction false} LastValueAbsent<V>(kvs: seq<(string, V)>, id: string, n: nat)
    requires n <= |kvs|
    ensures LastValue(kvs, id, n).None? <==> forall j :: 0 <= j < n ==> kvs[j].0 != id
    decreases n
  {
    if n > 0 {
      LastValueAbsent(kvs, id, n - 1);
    }
  }

  /** Otherwise it is the value of the last pair with that key. */
  lemma {:induction false} LastValueAt<V>(kvs: seq<(string, V)>, id: string, i: nat, n: nat)
    requires i < n <= |kvs| && kvs[i].0 == id
    requires forall j :: i < j < n ==> kvs[j].0 != id
    ensures LastValue(kvs, id, n) == Some(kvs[i].1)
    decreases n
  {
    if i < n - 1 {
      LastValueAt(kvs, id, i, n - 1);
    }
  }

  /** `delete m[k]` / `m.delete(k)`: the other entries keep their order. */
  function Remove<V>(m: OMap<V>, k: string): (r: OMap<V>)
    ensures Get(r, k).None?
    ensures forall k' :: k' != k ==> Get(r, k') == Get(m, k')
    decreases |m|
  {
    if |m| == 0 then []
    else if m[0].0 == k then
      assert m == [m[0]] + m[1..];
      forall k' | k' != k ensures Get(m[1..], k') == Get(m, k') {
        GetCons(m[0], m[1..], k');
      }
      m[1..]
    else
      var rest := Remove(m[1..], k);
      assert m == [m[0]] + m[1..];
      assert Get(m[1..], m[0].0).None?;
      assert Get(rest, m[0].0).None?;
      forall k' ensures Get([m[0]] + rest, k') == if k' == k then None else Get(m, k') {
        GetCons(m[0], rest, k');
        GetCons(m[0], m[1..], k');
      }
      [m[0]] + rest
  }

  /** A lookup in a list with one more entry at the end finds an earlier entry first. */
  lemma {:induction false} GetSnoc<V>(m: seq<(string, V)>, e: (string, V), k: string)
    ensures Get(m + [e], k) == if HasKey(m, k) then Get(m, k) else if e.0 == k then Some(e.1) else None
    decreases |m|
  {
    if |m| == 0 {
      assert [e] + [] == [e];
      GetCons(e, [], k);
    } else {
      assert m + [e] == [m[0]] + (m[1..] + [e]);
      assert m == [m[0]] + m[1..];
      GetCons(m[0], m[1..] + [e], k);
      GetCons(m[0], m[1..], k);
      GetSnoc(m[1..], e, k);
    }
  }

  lemma GetSnocAll<V>(m: seq<(string, V)>, e: (string, V))
    ensures forall k :: Get(m + [e], k) == if HasKey(m, k) then Get(m, k) else if e.0 == k then Some(e.1) else None
  {
    forall k ensures Get(m + [e], k) == if HasKey(m, k) then Get(m, k) else if e.0 == k then Some(e.1) else None {
      GetSnoc(m, e, k);
    }
  }

  /** Setting a key the map does not hold appends an entry at the end. */
  lemma {:induction false} PutFresh<V>(m: OMap<V>, k: string, v: V)
    requires !HasKey(m, k)
    ensures Put(m, k, v) == m + [(k, v)]
    decreases |m|
  {
    if |m| > 0 {
      assert m == [m[0]] + m[1..];
      GetCons(m[0], m[1..], k);
      PutFresh(m[1..], k, v);
    }
  }

  /** In a map with distinct keys, the key of an entry does not occur before it. */
  lemma FreshBefore<V>(m: OMap<V>, i: int)
    requires 0 <= i < |m|
    ensures !HasKey(m[..i], m[i].0)
  {
    assert forall j :: 0 <= j < i ==> m[..i][j].0 != m[i].0;
  }
}
