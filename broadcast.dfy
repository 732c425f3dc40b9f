/** The subscription table of a client connection, `Map<api, Map<method, Set<callback>>>`
    (src/Client.tsx:445-471, the same code in src/server.js:203-233). A callback is an
    opaque handle; a JavaScript `Set` is kept as its insertion order without repeats. */
module Broadcast {
  import opened Seqs

  type Callback = nat

  type Table<K> = map<K, map<string, seq<Callback>>>

  /** Every callback list is free of repeats. */
  predicate Wellformed<K>(t: Table<K>) {
    forall api, m :: api in t && m in t[api] ==> NoDup(t[api][m])
  }

  /** The callbacks an `execute` message for `api`/`method` is delivered to. */
  function Callbacks<K>(t: Table<K>, api: K, m: string): seq<Callback> {
    if api in t && m in t[api] then t[api][m] else []
  }

  /** `subscribe(api, method, callback)`: creates the missing levels, then adds the
      callback to the set (a callback already there stays where it is). */
  function Subscribe<K(!new)>(t: Table<K>, api: K, m: string, cb: Callback): (r: Table<K>)
    ensures api in r && m in r[api]
    ensures Callbacks(r, api, m) ==
      if cb in Callbacks(t, api, m) then Callbacks(t, api, m) else Callbacks(t, api, m) + [cb]
    ensures forall a, m' :: (a, m') != (api, m) ==> Callbacks(r, a, m') == Callbacks(t, a, m')
    ensures Wellformed(t) ==> Wellformed(r)
  {
    var methods := if api in t then t[api] else map[];
    var cbs := if m in methods then methods[m] else [];
    var added := if cb in cbs then cbs else cbs + [cb];
    t[api := methods[m := added]]
  }

  /** `unsubscribe(api, method, callback)`: removes the callback if the levels exist; the
      (possibly empty) levels themselves are kept. */
  function Unsubscribe<K(!new)>(t: Table<K>, api: K, m: string, cb: Callback): (r: Table<K>)
    ensures r.Keys == t.Keys
    ensures forall a :: a in t ==> r[a].Keys == t[a].Keys
    ensures Callbacks(r, api, m) == Without(Callbacks(t, api, m), cb)
    ensures forall a, m' :: (a, m') != (api, m) ==> Callbacks(r, a, m') == Callbacks(t, a, m')
    ensures Wellformed(t) ==> Wellformed(r)
  {
    if api !in t || m !in t[api] then t
    else t[api := t[api][m := Without(t[api][m], cb)]]
  }

  /** Subscribing the same callback twice is the same as subscribing it once. */
  lemma SubscribeIdempotent<K(!new)>(t: Table<K>, api: K, m: string, cb: Callback)
    ensures Subscribe(Subscribe(t, api, m, cb), api, m, cb) == Subscribe(t, api, m, cb)
  {
    var once := Subscribe(t, api, m, cb);
    assert cb in once[api][m];
    assert once[api][m := once[api][m]] == once[api];
    assert once[api := once[api]] == once;
  }

  /** Unsubscribing a callback that was just subscribed, and was not there before,
      restores every delivery list. */
  lemma {:induction false} SubscribeThenUnsubscribe<K(!new)>(t: Table<K>, api: K, m: string, cb: Callback)
    requires cb !in Callbacks(t, api, m)
    ensures forall a, m' ::
      Callbacks(Unsubscribe(Subscribe(t, api, m, cb), api, m, cb), a, m') == Callbacks(t, a, m')
  {
    var before := Callbacks(t, api, m);
    WithoutAppended(before, cb);
  }

  lemma {:induction false} WithoutAppended(s: seq<Callback>, x: Callback)
    requires x !in s
    ensures Without(s + [x], x) == s
    decreases |s|
  {
    if |s| == 0 {
      assert [x][1..] == [];
    } else {
      assert (s + [x])[1..] == s[1..] + [x];
      WithoutAppended(s[1..], x);
      assert s == [s[0]] + s[1..];
    }
  }
}
