/** Array operations the JavaScript sources use: `filter`, `indexOf`, `find`, and a
    stable `sort` by a string key. */
module Seqs {
  import opened Wrappers
  import Strings

  /** `s.filter(p)`: the elements satisfying `p`, in their original order. */
  function Filter<T>(s: seq<T>, p: T -> bool): (r: seq<T>)
    ensures |r| <= |s|
    ensures forall i :: 0 <= i < |r| ==> r[i] in s && p(r[i])
    ensures forall i :: 0 <= i < |s| && p(s[i]) ==> s[i] in r
    decreases |s|
  {
    if |s| == 0 then []
    else if p(s[0]) then [s[0]] + Filter(s[1..], p)
    else Filter(s[1..], p)
  }

  /** Filtering a concatenation filters each part. */
  lemma {:induction false} FilterAppend<T>(a: seq<T>, b: seq<T>, p: T -> bool)
    ensures Filter(a + b, p) == Filter(a, p) + Filter(b, p)
    decreases |a|
  {
    if |a| > 0 {
      assert (a + b)[1..] == a[1..] + b;
      FilterAppend(a[1..], b, p);
    } else {
      assert a + b == b;
    }
  }

  /** `s.indexOf(x)`: the first index holding `x`, or -1. */
  function IndexOfElem<T(==)>(s: seq<T>, x: T): (r: int)
    ensures -1 <= r < |s|
    ensures r == -1 <==> x !in s
    ensures r >= 0 ==> s[r] == x && x !in s[..r]
    decreases |s|
  {
    if |s| == 0 then -1
    else if s[0] == x then 0
    else
      var k := IndexOfElem(s[1..], x);
      if k == -1 then -1
      else
        assert s[..k + 1] == [s[0]] + s[1..][..k];
        k + 1
  }

  /** `s.find(p)`: the first element satisfying `p`, if any. */
  function Find<T>(s: seq<T>, p: T -> bool): (r: Option<T>)
    ensures r.None? <==> forall i :: 0 <= i < |s| ==> !p(s[i])
    ensures r.Some? ==>
      exists i :: (0 <= i < |s| && s[i] == r.value && p(s[i]) && forall j :: 0 <= j < i ==> !p(s[j]))
    decreases |s|
  {
    if |s| == 0 then None
    else if p(s[0]) then Some(s[0])
    else
      var r := Find(s[1..], p);
      assert forall i :: 1 <= i < |s| ==> s[i] == s[1..][i - 1];
      if r.Some? then
        ghost var i :| 0 <= i < |s[1..]| && s[1..][i] == r.value && p(s[1..][i])
          && forall j :: 0 <= j < i ==> !p(s[1..][j]);
        assert s[i + 1] == r.value && forall j :: 0 <= j < i + 1 ==> !p(s[j]);
        r
      else r
  }

  /** The first element satisfying `p` is the one `find` returns. */
  lemma FindFirst<T>(s: seq<T>, p: T -> bool, k: int)
    requires 0 <= k < |s| && p(s[k]) && forall j :: 0 <= j < k ==> !p(s[j])
    ensures Find(s, p) == Some(s[k])
  {
    var r := Find(s, p);
    var i :| 0 <= i < |s| && s[i] == r.value && p(s[i]) && forall j :: 0 <= j < i ==> !p(s[j]);
    assert !(i < k) && !(k < i);
  }

  /** No element occurs twice (a JavaScript Set kept as its insertion order). */
  predicate NoDup<T(==)>(s: seq<T>) {
    forall i, j :: 0 <= i < j < |s| ==> s[i] != s[j]
  }

  /** `s` minus every copy of `x`. */
  function Without<T(==)>(s: seq<T>, x: T): (r: seq<T>)
    ensures forall i :: 0 <= i < |r| ==> r[i] in s && r[i] != x
    ensures forall i :: 0 <= i < |s| && s[i] != x ==> s[i] in r
    ensures NoDup(s) ==> NoDup(r)
    decreases |s|
  {
    if |s| == 0 then []
    else if s[0] == x then Without(s[1..], x)
    else
      var rest := Without(s[1..], x);
      assert s[0] !in s[1..] ==> s[0] !in rest;
      [s[0]] + rest
  }

  /** `s` without its entry at `i`, the rest in order (`splice(i, 1)`). */
  function RemoveAt<T>(s: seq<T>, i: int): (r: seq<T>)
    requires 0 <= i < |s|
    ensures |r| == |s| - 1
    ensures forall j :: 0 <= j < i ==> r[j] == s[j]
    ensures forall j :: i <= j < |r| ==> r[j] == s[j + 1]
    ensures multiset(r) == multiset(s) - multiset{s[i]}
  {
    assert s == s[..i] + [s[i]] + s[i + 1..];
    s[..i] + s[i + 1..]
  }

  /** Removing an entry from a list without repeats leaves a list without repeats that
      no longer holds that entry. */
  lemma RemoveAtNoDup<T>(s: seq<T>, i: int)
    requires 0 <= i < |s| && NoDup(s)
    ensures NoDup(RemoveAt(s, i)) && s[i] !in RemoveAt(s, i)
  {
    var r := RemoveAt(s, i);
    forall j, k | 0 <= j < k < |r| ensures r[j] != r[k] {
      var j' := if j < i then j else j + 1;
      var k' := if k < i then k else k + 1;
      assert r[j] == s[j'] && r[k] == s[k'];
    }
    forall j | 0 <= j < |r| ensures r[j] != s[i] {
      var j' := if j < i then j else j + 1;
      assert r[j] == s[j'];
    }
  }

  /** Two lists with the same multiset hold the same elements. */
  lemma SameElements<T>(a: seq<T>, b: seq<T>)
    requires multiset(a) == multiset(b)
    ensures forall x :: x in a <==> x in b
  {
    forall x ensures x in a <==> x in b {
      assert x in a <==> x in multiset(a);
      assert x in b <==> x in multiset(b);
    }
  }

  // ---------------------------------------------------------------- sorting

  /** Sorted by key, ascending, in the code-unit order. */
  predicate SortedBy<T>(s: seq<T>, key: T -> string) {
    forall i, j :: 0 <= i < j < |s| ==> !Strings.Less(key(s[j]), key(s[i]))
  }

  /** Insert `x` before the first element whose key is not below its own. */
  function InsertBy<T>(x: T, s: seq<T>, key: T -> string): (r: seq<T>)
    ensures multiset(r) == multiset(s) + multiset{x}
    ensures SortedBy(s, key) ==> SortedBy(r, key)
    decreases |s|
  {
    if |s| == 0 then [x]
    else if !Strings.Less(key(s[0]), key(x)) then
      InsertFront(x, s, key);
      [x] + s
    else
      var rest := InsertBy(x, s[1..], key);
      assert s == [s[0]] + s[1..];
      InsertAfterHead(x, s, rest, key);
      [s[0]] + rest
  }

  lemma InsertFront<T>(x: T, s: seq<T>, key: T -> string)
    requires |s| > 0 && !Strings.Less(key(s[0]), key(x))
    ensures SortedBy(s, key) ==> SortedBy([x] + s, key)
  {
    if SortedBy(s, key) {
      var r := [x] + s;
      forall i, j | 0 <= i < j < |r| ensures !Strings.Less(key(r[j]), key(r[i])) {
        if i == 0 && j > 1 {
          LessEqChain(key(x), key(s[0]), key(s[j - 1]));
        }
      }
    }
  }

  lemma InsertAfterHead<T>(x: T, s: seq<T>, rest: seq<T>, key: T -> string)
    requires |s| > 0 && Strings.Less(key(s[0]), key(x))
    requires multiset(rest) == multiset(s[1..]) + multiset{x}
    requires SortedBy(s, key) ==> SortedBy(rest, key)
    ensures SortedBy(s, key) ==> SortedBy([s[0]] + rest, key)
  {
    if SortedBy(s, key) {
      var r := [s[0]] + rest;
      forall i, j | 0 <= i < j < |r| ensures !Strings.Less(key(r[j]), key(r[i])) {
        if i == 0 {
          var y := rest[j - 1];
          assert y in multiset(rest);
          assert y in multiset(s[1..]) || y == x;
          if y == x {
            Strings.LessAsymmetric(key(s[0]), key(x));
          } else {
            var k :| 0 <= k < |s[1..]| && s[1..][k] == y;
            assert s[k + 1] == y;
          }
        }
      }
    }
  }

  /** Chaining two "not below" steps. */
  lemma LessEqChain(a: string, b: string, c: string)
    requires !Strings.Less(b, a) && !Strings.Less(c, b)
    ensures !Strings.Less(c, a)
  {
    if Strings.Less(c, a) {
      Strings.LessTotal(a, b);
      Strings.LessTotal(b, c);
      if a == b {
      } else if b == c {
      } else {
        Strings.LessTransitive(c, a, b);
        Strings.LessAsymmetric(c, b);
      }
    }
  }

  /** `s.sort((a, b) => key(a) < key(b) ? -1 : ...)`: a stable insertion sort; the
      result is ordered by key and holds exactly the input's elements. */
  function SortBy<T>(s: seq<T>, key: T -> string): (r: seq<T>)
    ensures multiset(r) == multiset(s)
    ensures SortedBy(r, key)
    decreases |s|
  {
    if |s| == 0 then []
    else
      assert s == [s[0]] + s[1..];
      InsertBy(s[0], SortBy(s[1..], key), key)
  }
}
