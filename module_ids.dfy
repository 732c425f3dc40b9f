/** The module ids both plugin compilers hand to the bundler
    (desktop/static/compilePlugins.ts and static/compilePlugins.js, which share this code):
    a path's id is a 32-bit string hash, remembered per path, and the bundler's prelude is
    always module 0. */
module ModuleIds {
  import Int32

  const Prelude: string := "__prelude__"

  /** The hash of a string: starting from 0, each character code is folded in as
      `h * 31 + code`, kept to 32 signed bits. */
  function Hash(s: string): (h: int)
    ensures -Int32.Two31 <= h < Int32.Two31
    decreases |s|
  {
    if |s| == 0 then 0 else Int32.ToInt32(31 * Hash(s[..|s| - 1]) + s[|s| - 1] as int)
  }

  /** `hash`: the loop over the characters, computing `(hash << 5) - hash + chr` and
      then `hash |= 0`. */
  method ComputeHash(s: string) returns (hash: int)
    ensures hash == Hash(s)
  {
    hash := 0;
    if |s| == 0 {
      return;
    }
    var i := 0;
    while i < |s|
      invariant 0 <= i <= |s|
      invariant hash == Hash(s[..i])
    {
      var chr := s[i] as int;
      var shifted := Int32.ToInt32(hash * 32);
      ShiftSubtractStep(hash, chr);
      hash := Int32.ToInt32(shifted - hash + chr);
      assert s[..i + 1][..i] == s[..i];
      i := i + 1;
    }
    assert s[..i] == s;
  }

  /** `(h << 5) - h + c`, cut to 32 bits, is `31 * h + c` cut to 32 bits. */
  lemma ShiftSubtractStep(h: int, c: int)
    requires -Int32.Two31 <= h < Int32.Two31
    ensures Int32.ToInt32(Int32.ToInt32(h * 32) - h + c) == Int32.ToInt32(31 * h + c)
  {
    var shifted := Int32.ToInt32(h * 32);
    assert (shifted - h + c) - (31 * h + c) == shifted - h * 32;
    Int32.ToInt32Congruent(shifted - h + c, 31 * h + c);
  }

  function Pow31(n: nat): nat {
    if n == 0 then 1 else 31 * Pow31(n - 1)
  }

  /** The hash without the 32-bit cut: the sum of each character code times 31 to the
      power of the number of characters after it. */
  function Polynomial(s: string): int
    decreases |s|
  {
    if |s| == 0 then 0 else (s[0] as int) * Pow31(|s| - 1) + Polynomial(s[1..])
  }

  lemma {:induction false} PolynomialSnoc(p: string, c: char)
    ensures Polynomial(p + [c]) == 31 * Polynomial(p) + c as int
    decreases |p|
  {
    if |p| == 0 {
      assert p + [c] == [c];
      assert [c][1..] == "";
    } else {
      var q := p + [c];
      assert q[0] == p[0] && q[1..] == p[1..] + [c];
      PolynomialSnoc(p[1..], c);
      assert Pow31(|q| - 1) == 31 * Pow31(|p| - 1);
    }
  }

  /** The hash is the polynomial of the character codes in base 31, reduced to 32 signed
      bits: the cut after every step loses nothing the final cut would keep. */
  lemma {:induction false} HashIsPolynomial(s: string)
    ensures Hash(s) == Int32.ToInt32(Polynomial(s))
    decreases |s|
  {
    if |s| > 0 {
      var p, c := s[..|s| - 1], s[|s| - 1];
      assert s == p + [c];
      HashIsPolynomial(p);
      PolynomialSnoc(p, c);
      var h := Hash(p);
      assert (h - Polynomial(p)) % Int32.Two32 == 0;
      var k := (h - Polynomial(p)) / Int32.Two32;
      assert (31 * h + c as int) - (31 * Polynomial(p) + c as int) == 31 * k * Int32.Two32;
      Int32.ToInt32Congruent(31 * h + c as int, 31 * Polynomial(p) + c as int);
    }
  }

  /** `fileToIdMap` together with the id function `createModuleIdFactory` returns; every
      factory shares the one map. */
  class ModuleIdFactory {
    var fileToId: map<string, int>

    /** Every remembered id is the hash of its path. */
    ghost predicate Valid()
      reads this
    {
      forall p :: p in fileToId ==> fileToId[p] == Hash(p)
    }

    constructor ()
      ensures Valid() && fileToId == map[]
    {
      fileToId := map[];
    }

    /** The id of a module path: 0 for the prelude, otherwise the remembered id, or the
        path's hash, which is then remembered. Asking again gives the same id. */
    method ModuleId(filePath: string) returns (id: int)
      requires Valid()
      modifies this
      ensures Valid()
      ensures filePath == Prelude ==> id == 0 && fileToId == old(fileToId)
      ensures filePath != Prelude ==> id == Hash(filePath) && fileToId == old(fileToId)[filePath := id]
    {
      if filePath == Prelude {
        return 0;
      }
      if filePath in fileToId {
        id := fileToId[filePath];
      } else {
        id := ComputeHash(filePath);
        fileToId := fileToId[filePath := id];
      }
    }
  }
}
