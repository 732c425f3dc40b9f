/** The JavaScript string operations the sources rely on: `indexOf`/`includes`,
    `replace` with a string pattern (first occurrence only), `split`/`join` on one
    character, number-to-text in base 10 and 16, `parseInt` of digits, ASCII
    `toLowerCase`, and the code-unit order of `<`/`>`. */
module Strings {

  // ---------------------------------------------------------------- search

  /** `t` occurs in `s` starting at index `i`. */
  predicate OccursAt(s: string, t: string, i: int) {
    0 <= i && i + |t| <= |s| && s[i..i + |t|] == t
  }

  /** `s.indexOf(t)`: the first index at which `t` occurs, or -1. */
  function IndexOf(s: string, t: string): (r: int)
    ensures r == -1 || OccursAt(s, t, r)
    ensures r == -1 ==> forall i :: !OccursAt(s, t, i)
    ensures forall i :: 0 <= i < r ==> !OccursAt(s, t, i)
    decreases |s|
  {
    if |t| > |s| then -1
    else if s[..|t|] == t then assert s[0..|t|] == s[..|t|]; 0
    else
      assert !OccursAt(s, t, 0) by { assert s[0..|t|] == s[..|t|]; }
      var k := IndexOf(s[1..], t);
      ShiftOccurrence(s, t);
      if k == -1 then -1 else k + 1
  }

  /** An occurrence after the first character is an occurrence in the rest. */
  lemma ShiftOccurrence(s: string, t: string)
    requires |s| > 0
    ensures forall i :: 1 <= i ==> (OccursAt(s, t, i) <==> OccursAt(s[1..], t, i - 1))
  {
    forall i | 1 <= i ensures OccursAt(s, t, i) <==> OccursAt(s[1..], t, i - 1) {
      if i + |t| <= |s| {
        assert s[1..][i - 1..i - 1 + |t|] == s[i..i + |t|];
      }
    }
  }

  /** `s.includes(t)`. */
  predicate Contains(s: string, t: string) {
    IndexOf(s, t) >= 0
  }

  lemma ContainsIff(s: string, t: string)
    ensures Contains(s, t) <==> exists i :: OccursAt(s, t, i)
  {
  }

  /** `s.startsWith(p)`. */
  predicate StartsWith(s: string, p: string) {
    |p| <= |s| && s[..|p|] == p
  }

  /** `s.endsWith(p)`. */
  predicate EndsWith(s: string, p: string) {
    |p| <= |s| && s[|s| - |p|..] == p
  }

  lemma StartsWithConcat(p: string, q: string)
    ensures StartsWith(p + q, p) && (p + q)[|p|..] == q
  {
    assert (p + q)[..|p|] == p;
  }

  lemma EndsWithConcat(p: string, q: string)
    ensures EndsWith(p + q, q)
  {
    assert (p + q)[|p + q| - |q|..] == q;
  }

  /** An occurrence with none before it is the one `indexOf` finds. */
  lemma IndexOfFirst(s: string, t: string, k: int)
    requires OccursAt(s, t, k)
    requires forall i :: 0 <= i < k ==> !OccursAt(s, t, i)
    ensures IndexOf(s, t) == k
  {
  }

  /** `s.replace(pat, rep)` with a string pattern: only the FIRST occurrence of `pat`
      is replaced; without an occurrence the string is returned unchanged. */
  function ReplaceFirst(s: string, pat: string, rep: string): (r: string)
    ensures !Contains(s, pat) ==> r == s
    ensures Contains(s, pat) ==>
      var i := IndexOf(s, pat);
      |r| == |s| - |pat| + |rep| && r[..i] == s[..i] && OccursAt(r, rep, i)
      && r[i + |rep|..] == s[i + |pat|..]
  {
    var i := IndexOf(s, pat);
    if i < 0 then s else s[..i] + rep + s[i + |pat|..]
  }

  // ---------------------------------------------------------------- split / join

  /** `s.split(c)` for a one-character separator: always at least one piece, and no
      piece holds the separator. */
  function Split(s: string, c: char): (r: seq<string>)
    ensures |r| >= 1
    ensures forall k :: 0 <= k < |r| ==> c !in r[k]
    decreases |s|
  {
    if |s| == 0 then [""]
    else
      var rest := Split(s[1..], c);
      if s[0] == c then [""] + rest else [[s[0]] + rest[0]] + rest[1..]
  }

  /** `parts.join(c)`; the empty list joins to "". */
  function Join(parts: seq<string>, c: char): string
    decreases |parts|
  {
    if |parts| == 0 then ""
    else if |parts| == 1 then parts[0]
    else parts[0] + [c] + Join(parts[1..], c)
  }

  /** Joining the pieces of a split gives the string back. */
  lemma {:induction false} JoinSplit(s: string, c: char)
    ensures Join(Split(s, c), c) == s
    decreases |s|
  {
    if |s| > 0 {
      var rest := Split(s[1..], c);
      JoinSplit(s[1..], c);
      if s[0] == c {
        assert Split(s, c) == [""] + rest;
        assert Join([""] + rest, c) == "" + [c] + Join(rest, c);
        assert s == [s[0]] + s[1..];
      } else {
        var r := [[s[0]] + rest[0]] + rest[1..];
        assert Split(s, c) == r;
        if |rest| == 1 {
          assert Join(r, c) == [s[0]] + rest[0];
          assert s == [s[0]] + s[1..];
        } else {
          assert r[1..] == rest[1..];
          assert Join(r, c) == [s[0]] + rest[0] + [c] + Join(rest[1..], c);
          assert Join(rest, c) == rest[0] + [c] + Join(rest[1..], c);
          assert s == [s[0]] + s[1..];
        }
      }
    }
  }

  /** Splitting a join of separator-free pieces gives the pieces back. */
  lemma {:induction false} SplitJoin(parts: seq<string>, c: char)
    requires |parts| >= 1
    requires forall k :: 0 <= k < |parts| ==> c !in parts[k]
    ensures Split(Join(parts, c), c) == parts
    decreases |parts|, |parts[0]|
  {
    if |parts[0]| > 0 {
      var p0 := parts[0];
      var tail := [p0[1..]] + parts[1..];
      assert Join(parts, c) == [p0[0]] + Join(tail, c) by {
        if |parts| == 1 {
        } else {
          assert tail[1..] == parts[1..];
          assert p0 == [p0[0]] + p0[1..];
        }
      }
      assert p0[0] != c by { assert p0[0] in p0; }
      assert forall k :: 0 <= k < |tail| ==> c !in tail[k] by {
        forall k | 0 <= k < |tail| ensures c !in tail[k] {
          if k == 0 {
            assert forall x :: x in p0[1..] ==> x in p0;
          } else {
            assert tail[k] == parts[k];
          }
        }
      }
      SplitJoin(tail, c);
      var j := Join(parts, c);
      assert j[1..] == Join(tail, c);
      assert Split(j, c) == [[p0[0]] + tail[0]] + tail[1..];
      assert [p0[0]] + p0[1..] == p0;
      assert tail[1..] == parts[1..];
    } else if |parts| > 1 {
      assert Join(parts, c) == [c] + Join(parts[1..], c);
      SplitJoin(parts[1..], c);
      var j := Join(parts, c);
      assert j[1..] == Join(parts[1..], c);
      assert parts == [""] + parts[1..];
    }
  }

  /** Joining a list with one more piece appends the separator and that piece. */
  lemma {:induction false} JoinSnoc(parts: seq<string>, last: string, c: char)
    requires |parts| >= 1
    ensures Join(parts + [last], c) == Join(parts, c) + [c] + last
    decreases |parts|
  {
    if |parts| == 1 {
      assert parts + [last] == [parts[0], last];
      assert [parts[0], last][1..] == [last];
    } else {
      assert (parts + [last])[1..] == parts[1..] + [last];
      JoinSnoc(parts[1..], last, c);
    }
  }

  /** The text after the last separator: `s.split(c).pop()`. */
  function LastPiece(s: string, c: char): string {
    var parts := Split(s, c);
    parts[|parts| - 1]
  }

  /** What is left of the split after the pop, joined again: `keyArray.join(c)`. */
  function PrefixBeforeLast(s: string, c: char): string {
    var parts := Split(s, c);
    Join(parts[..|parts| - 1], c)
  }

  /** A string with the separator is its prefix, the separator and the last piece; a
      string without it has an empty prefix and is its own last piece. */
  lemma PrefixAndLastPiece(s: string, c: char)
    ensures c in s ==> s == PrefixBeforeLast(s, c) + [c] + LastPiece(s, c)
    ensures c !in s ==> PrefixBeforeLast(s, c) == "" && LastPiece(s, c) == s
  {
    var parts := Split(s, c);
    JoinSplit(s, c);
    if |parts| == 1 {
      assert Join(parts, c) == parts[0];
      assert parts[..0] == [];
    } else {
      assert parts == parts[..|parts| - 1] + [parts[|parts| - 1]];
      JoinSnoc(parts[..|parts| - 1], parts[|parts| - 1], c);
      assert s[|PrefixBeforeLast(s, c)|] == c;
    }
  }

  // ---------------------------------------------------------------- numbers as text

  /** The lower-case digit character for a value below 16. */
  function DigitChar(d: nat): (ch: char)
    requires d < 16
    ensures DigitValue(ch) == d
  {
    if d < 10 then ('0' as int + d) as char else ('a' as int + d - 10) as char
  }

  /** The value of a digit character in any base up to 16 (either letter case), or -1. */
  function DigitValue(ch: char): (v: int)
    ensures -1 <= v < 16
  {
    if '0' <= ch <= '9' then ch as int - '0' as int
    else if 'a' <= ch <= 'f' then ch as int - 'a' as int + 10
    else if 'A' <= ch <= 'F' then ch as int - 'A' as int + 10
    else -1
  }

  /** The two radixes the sources print and parse numbers in. */
  datatype Radix = Decimal | Hex
  {
    function Base(): nat {
      if this == Decimal then 10 else 16
    }
    // Division and multiplication by the literal base keep the arithmetic linear.
    function Quot(n: nat): (q: nat)
      ensures n >= Base() ==> q < n
      ensures n == q * Base() + Rem(n)
    {
      if this == Decimal then n / 10 else n / 16
    }
    function Rem(n: nat): (d: nat)
      ensures d < Base()
    {
      if this == Decimal then n % 10 else n % 16
    }
    function Scale(x: nat): nat {
      if this == Decimal then x * 10 else x * 16
    }
  }

  /** Every character of `s` is a digit of the radix. */
  predicate AllDigits(s: string, radix: Radix) {
    forall i :: 0 <= i < |s| ==> 0 <= DigitValue(s[i]) < radix.Base()
  }

  /** `n.toString(10)` / `n.toString(16)`: lower-case digits, no leading zeros. */
  function NatToText(n: nat, radix: Radix): (r: string)
    ensures |r| >= 1 && AllDigits(r, radix)
    ensures |r| > 1 ==> r[0] != '0'
    decreases n
  {
    if n < radix.Base() then [DigitChar(n)]
    else NatToText(radix.Quot(n), radix) + [DigitChar(radix.Rem(n))]
  }

  /** `parseInt(s, radix)` of a string made only of digits of that radix. */
  function ParseDigits(s: string, radix: Radix): nat
    requires AllDigits(s, radix)
    decreases |s|
  {
    if |s| == 0 then 0
    else radix.Scale(ParseDigits(s[..|s| - 1], radix)) + DigitValue(s[|s| - 1])
  }

  /** Parsing the text of a number gives the number back. */
  lemma {:induction false} ParseNatToText(n: nat, radix: Radix)
    ensures ParseDigits(NatToText(n, radix), radix) == n
    decreases n
  {
    var r := NatToText(n, radix);
    if n < radix.Base() {
      assert r[..0] == "";
    } else {
      var q := radix.Quot(n);
      ParseNatToText(q, radix);
      assert r[..|r| - 1] == NatToText(q, radix);
    }
  }

  /** Different numbers have different texts. */
  lemma NatToTextInjective(m: nat, n: nat, radix: Radix)
    ensures NatToText(m, radix) == NatToText(n, radix) ==> m == n
  {
    ParseNatToText(m, radix);
    ParseNatToText(n, radix);
  }

  /** `String(n)` for an integer. */
  function IntToText(n: int): (r: string)
    ensures |r| >= 1
  {
    if n < 0 then "-" + NatToText(-n, Decimal) else NatToText(n, Decimal)
  }

  // ---------------------------------------------------------------- case and order

  /** `toLowerCase` restricted to ASCII letters. */
  function LowerChar(ch: char): char {
    if 'A' <= ch <= 'Z' then (ch as int + 32) as char else ch
  }

  function ToLower(s: string): (r: string)
    ensures |r| == |s|
    ensures forall i :: 0 <= i < |s| ==> r[i] == LowerChar(s[i])
  {
    seq(|s|, i requires 0 <= i < |s| => LowerChar(s[i]))
  }

  /** `a < b` on strings: lexicographic by character code. */
  predicate Less(a: string, b: string)
    decreases |a|
  {
    if |a| == 0 then |b| > 0
    else if |b| == 0 then false
    else if a[0] != b[0] then a[0] < b[0]
    else Less(a[1..], b[1..])
  }

  /** The order is irreflexive and asymmetric. */
  lemma {:induction false} LessAsymmetric(a: string, b: string)
    ensures !(Less(a, b) && Less(b, a))
    decreases |a|
  {
    if |a| > 0 && |b| > 0 && a[0] == b[0] {
      LessAsymmetric(a[1..], b[1..]);
    }
  }

  /** Two different strings are ordered one way or the other. */
  lemma {:induction false} LessTotal(a: string, b: string)
    ensures a != b ==> Less(a, b) || Less(b, a)
    decreases |a|
  {
    if |a| > 0 && |b| > 0 && a[0] == b[0] {
      LessTotal(a[1..], b[1..]);
      if a[1..] == b[1..] {
        assert a == [a[0]] + a[1..] && b == [b[0]] + b[1..];
      }
    }
  }

  lemma {:induction false} LessTransitive(a: string, b: string, c: string)
    requires Less(a, b) && Less(b, c)
    ensures Less(a, c)
    decreases |a|
  {
    if |a| > 0 && a[0] == b[0] && b[0] == c[0] {
      LessTransitive(a[1..], b[1..], c[1..]);
    }
  }

  /** If `a c x == b c y` and neither `a` nor `b` holds `c`, the two splits agree. */
  lemma SplitAtFirstSeparator(a: string, x: string, b: string, y: string, c: char)
    requires c !in a && c !in b
    requires a + [c] + x == b + [c] + y
    ensures a == b && x == y
  {
    var s := a + [c] + x;
    assert forall i :: 0 <= i < |a| ==> s[i] == a[i];
    assert forall i :: 0 <= i < |b| ==> s[i] == b[i];
    assert s[|a|] == c && s[|b|] == c;
    assert |a| == |b|;
    assert a == s[..|a|] && b == s[..|b|];
    assert x == s[|a| + 1..] && y == s[|b| + 1..];
  }

  /** After replacing an occurrence, the replacement text occurs in the result. */
  lemma ReplaceFirstContains(s: string, pat: string, rep: string)
    requires Contains(s, pat)
    ensures Contains(ReplaceFirst(s, pat, rep), rep)
  {
    ContainsIff(ReplaceFirst(s, pat, rep), rep);
  }
}
