/** Icon names, sizes and pixel densities (src/utils/icons.js): an icon name may carry an
    `-outline` suffix that selects the outline variant; a requested size or density that is
    not available snaps to the next available one above it, or to the largest. Numbers are
    JavaScript numbers, modelled as reals; their text form (`${n}`) is a parameter. */
module Icons {
  import opened Wrappers
  import Strings
  import Seqs

  /** `AVAILABLE_SIZES`, ascending. */
  const AvailableSizes: seq<real> := [8.0, 10.0, 12.0, 16.0, 18.0, 20.0, 24.0, 32.0]
  /** `DENSITIES`, ascending. */
  const Densities: seq<real> := [1.0, 1.5, 2.0, 3.0, 4.0]

  const OutlineSuffix: string := "-outline"

  datatype IconParts = IconParts(trimmedName: string, variant: string)

  /** `getIconPartsFromName`: a name ending in `-outline` is the outline variant, with the
      FIRST occurrence of `-outline` removed; any other name is the filled variant as is. */
  function GetIconPartsFromName(icon: string): (r: IconParts)
    ensures r.variant == "outline" <==> Strings.EndsWith(icon, OutlineSuffix)
    ensures r.variant == "outline" || r.variant == "filled"
    ensures r.variant == "filled" ==> r.trimmedName == icon
    ensures r.variant == "outline" ==> |r.trimmedName| == |icon| - |OutlineSuffix|
  {
    if Strings.EndsWith(icon, OutlineSuffix) then
      assert Strings.OccursAt(icon, OutlineSuffix, |icon| - |OutlineSuffix|);
      IconParts(Strings.ReplaceFirst(icon, OutlineSuffix, ""), "outline")
    else IconParts(icon, "filled")
  }

  /** `-outline` cannot overlap itself: its only `-` is its first character. */
  lemma OutlineNotOverlapping(s: string, i: int, j: int)
    requires Strings.OccursAt(s, OutlineSuffix, i) && Strings.OccursAt(s, OutlineSuffix, j)
    requires i < j
    ensures j - i >= |OutlineSuffix|
  {
    assert s[j] == '-' by {
      assert s[j..j + |OutlineSuffix|][0] == s[j];
    }
    forall p | i < p < i + |OutlineSuffix| ensures s[p] != '-' {
      assert s[i..i + |OutlineSuffix|][p - i] == s[p];
    }
  }

  /** When `-outline` occurs in the name only as its suffix, the trimmed name is what
      precedes the suffix. */
  lemma OutlineSuffixRemoved(base: string)
    requires !Strings.Contains(base, OutlineSuffix)
    ensures GetIconPartsFromName(base + OutlineSuffix) == IconParts(base, "outline")
  {
    var s := base + OutlineSuffix;
    assert Strings.OccursAt(s, OutlineSuffix, |base|);
    assert forall k :: !Strings.OccursAt(base, OutlineSuffix, k);
    forall k | 0 <= k < |base| ensures !Strings.OccursAt(s, OutlineSuffix, k) {
      if k + |OutlineSuffix| <= |base| {
        assert !Strings.OccursAt(base, OutlineSuffix, k);
        assert s[k..k + |OutlineSuffix|] == base[k..k + |OutlineSuffix|];
      } else if Strings.OccursAt(s, OutlineSuffix, k) {
        OutlineNotOverlapping(s, k, |base|);
      }
    }
    assert Strings.IndexOf(s, OutlineSuffix) == |base|;
    assert Strings.ReplaceFirst(s, OutlineSuffix, "") == base;
  }

  /** An earlier `-outline` is the one removed, not the suffix: `a-outline-b-outline`
      trims to `a-b-outline`. */
  lemma EarlierOutlineRemoved(a: string, b: string)
    requires '-' !in a
    ensures GetIconPartsFromName(a + OutlineSuffix + b + OutlineSuffix) == IconParts(a + b + OutlineSuffix, "outline")
  {
    var tail := b + OutlineSuffix;
    var s := a + (OutlineSuffix + tail);
    assert a + OutlineSuffix + b + OutlineSuffix == s;
    assert s == (a + OutlineSuffix + b) + OutlineSuffix;
    Strings.EndsWithConcat(a + OutlineSuffix + b, OutlineSuffix);
    RemoveFirstAfterDashless(a, OutlineSuffix, tail);
  }

  /** Removing the first occurrence of such a pattern removes the one right after the
      part without `-`. */
  lemma RemoveFirstAfterDashless(a: string, t: string, tail: string)
    requires '-' !in a && |t| > 0 && t[0] == '-'
    ensures Strings.ReplaceFirst(a + (t + tail), t, "") == a + tail
  {
    var s := a + (t + tail);
    FirstAfterDashless(a, t, tail);
    assert s[..|a|] == a;
    assert s[|a| + |t|..] == tail;
    assert Strings.ReplaceFirst(s, t, "") == s[..|a|] + "" + s[|a| + |t|..];
  }

  /** After a part without `-`, the first occurrence of a pattern that starts with `-`
      is the one right after that part. */
  lemma FirstAfterDashless(a: string, t: string, tail: string)
    requires '-' !in a && |t| > 0 && t[0] == '-'
    ensures Strings.IndexOf(a + (t + tail), t) == |a|
  {
    var s := a + (t + tail);
    assert Strings.OccursAt(s, t, |a|) by {
      assert s[|a|..|a| + |t|] == t;
    }
    NoDashPatternBefore(a, t, t + tail);
    Strings.IndexOfFirst(s, t, |a|);
  }

  /** Such a pattern does not start inside a part without `-`. */
  lemma NoDashPatternBefore(a: string, t: string, tail: string)
    requires '-' !in a && |t| > 0 && t[0] == '-'
    ensures forall k :: 0 <= k < |a| ==> !Strings.OccursAt(a + tail, t, k)
  {
    var s := a + tail;
    forall k | 0 <= k < |a| ensures !Strings.OccursAt(s, t, k) {
      assert s[k] == a[k];
      if k + |t| <= |s| {
        assert s[k..k + |t|][0] == s[k];
      }
    }
  }

  /** The end of a local icon file name: `-<size>@<density>x.png`. */
  function LocalIconTail(size: real, density: real, show: real -> string): string {
    "-" + show(size) + "@" + show(density) + "x.png"
  }

  /** `buildLocalIconPath`: `icons/<trimmed>-<variant>-<size>@<density>x.png`. */
  function BuildLocalIconPath(name: string, size: real, density: real, show: real -> string): (r: string)
    ensures Strings.StartsWith(r, "icons/") && Strings.EndsWith(r, "x.png")
  {
    var icon := GetIconPartsFromName(name);
    var r := "icons/" + icon.trimmedName + "-" + icon.variant + LocalIconTail(size, density, show);
    assert r[..|"icons/"|] == "icons/";
    assert r[|r| - |"x.png"|..] == "x.png";
    r
  }

  /** For the same size and density, names with different parts have different local
      paths: the last character of the variant, `e` or `d`, tells the variants apart. */
  lemma LocalIconPathDistinguishesParts(a: string, b: string, size: real, density: real, show: real -> string)
    requires GetIconPartsFromName(a) != GetIconPartsFromName(b)
    ensures BuildLocalIconPath(a, size, density, show) != BuildLocalIconPath(b, size, density, show)
  {
    var pa, pb := GetIconPartsFromName(a), GetIconPartsFromName(b);
    var tail := LocalIconTail(size, density, show);
    var xa := "icons/" + pa.trimmedName + "-" + pa.variant;
    var xb := "icons/" + pb.trimmedName + "-" + pb.variant;
    var ya, yb := xa + tail, xb + tail;
    assert BuildLocalIconPath(a, size, density, show) == ya;
    assert BuildLocalIconPath(b, size, density, show) == yb;
    if ya == yb {
      assert xa == ya[..|xa|] == yb[..|xb|] == xb;
      VariantLastChar(pa.trimmedName, pa.variant);
      VariantLastChar(pb.trimmedName, pb.variant);
    }
  }

  /** The variant ends a stem `icons/<trimmed>-<variant>`. */
  lemma VariantLastChar(t: string, v: string)
    requires v == "outline" || v == "filled"
    ensures var x := "icons/" + t + "-" + v;
      x[|x| - 1] == (if v == "outline" then 'e' else 'd')
      && x[6..|x| - 1 - |v|] == t
  {
  }

  const UrlBase: string := "https://external.xx.fbcdn.net/assets/?name="

  /** `buildIconURL`: the CDN address carrying the trimmed name, variant, size and
      density as query parameters. */
  function BuildIconURL(name: string, size: real, density: real, show: real -> string): (r: string)
    ensures Strings.StartsWith(r, UrlBase)
    ensures Strings.EndsWith(r, "&density=" + show(density) + "x")
  {
    var icon := GetIconPartsFromName(name);
    var head := UrlBase + icon.trimmedName + "&variant=" + icon.variant + "&size=" + show(size)
      + "&set=facebook_icons";
    var tail := "&density=" + show(density) + "x";
    var rest := icon.trimmedName + "&variant=" + icon.variant + "&size=" + show(size) + "&set=facebook_icons";
    assert head == UrlBase + rest;
    Strings.StartsWithConcat(UrlBase, rest + tail);
    Strings.EndsWithConcat(head, tail);
    head + tail
  }

  /** `Math.max(...xs)`. */
  function MaxOf(xs: seq<real>): (r: real)
    requires |xs| > 0
    ensures r in xs
    ensures forall i :: 0 <= i < |xs| ==> xs[i] <= r
  {
    if |xs| == 1 then xs[0]
    else
      var m := MaxOf(xs[1..]);
      assert forall i :: 1 <= i < |xs| ==> xs[i] == xs[1..][i - 1];
      if xs[0] < m then m else xs[0]
  }

  /** The value kept when it is listed; otherwise the first listed value above it
      (`find`), or the largest when there is none. */
  function Snap(xs: seq<real>, x: real): real
    requires |xs| > 0
  {
    if x in xs then x
    else match Seqs.Find(xs, v => v > x)
      case None => MaxOf(xs)
      case Some(v) => v
  }

  predicate Ascending(xs: seq<real>) {
    forall i, j :: 0 <= i < j < |xs| ==> xs[i] < xs[j]
  }

  /** On an ascending list, snapping gives the least listed value not below the request,
      and the largest listed value when the request is above them all. */
  lemma SnapLeastAbove(xs: seq<real>, x: real)
    requires |xs| > 0 && Ascending(xs)
    ensures Snap(xs, x) in xs
    ensures x <= xs[|xs| - 1] ==>
      (x <= Snap(xs, x) && forall i :: 0 <= i < |xs| && x <= xs[i] ==> Snap(xs, x) <= xs[i])
    ensures x > xs[|xs| - 1] ==> Snap(xs, x) == xs[|xs| - 1]
  {
    var last := xs[|xs| - 1];
    if x in xs {
      var j :| 0 <= j < |xs| && xs[j] == x;
      assert j < |xs| - 1 ==> xs[j] < last;
    } else {
      var f := Seqs.Find(xs, v => v > x);
      if f.Some? {
        SnapAbove(xs, x);
      } else {
        SnapBeyond(xs, x);
      }
    }
  }

  /** The first listed value above an unlisted request is the least one not below it. */
  lemma SnapAbove(xs: seq<real>, x: real)
    requires |xs| > 0 && Ascending(xs) && x !in xs
    requires Seqs.Find(xs, v => v > x).Some?
    ensures x < Snap(xs, x) <= xs[|xs| - 1]
    ensures forall i :: 0 <= i < |xs| && x <= xs[i] ==> Snap(xs, x) <= xs[i]
  {
    var k := FirstAbove(xs, x);
    forall j | 0 <= j < k ensures xs[j] < x {
      assert xs[j] in xs;
    }
    LeastNotBelow(xs, x, k);
  }

  /** The position of the value `find` returns. */
  lemma FirstAbove(xs: seq<real>, x: real) returns (k: int)
    requires Seqs.Find(xs, v => v > x).Some?
    ensures 0 <= k < |xs| && Seqs.Find(xs, v => v > x) == Some(xs[k]) && xs[k] > x
    ensures forall j :: 0 <= j < k ==> xs[j] <= x
  {
    var f := Seqs.Find(xs, v => v > x);
    k :| 0 <= k < |xs| && xs[k] == f.value && xs[k] > x && forall j :: 0 <= j < k ==> !(xs[j] > x);
  }

  /** In an ascending list, the first value above `x`, with every earlier value below
      `x`, is at most any listed value not below `x`. */
  lemma LeastNotBelow(xs: seq<real>, x: real, k: int)
    requires Ascending(xs) && 0 <= k < |xs| && xs[k] > x
    requires forall j :: 0 <= j < k ==> xs[j] < x
    ensures xs[k] <= xs[|xs| - 1]
    ensures forall i :: 0 <= i < |xs| && x <= xs[i] ==> xs[k] <= xs[i]
  {
    assert k < |xs| - 1 ==> xs[k] < xs[|xs| - 1];
    forall i | 0 <= i < |xs| && x <= xs[i] ensures xs[k] <= xs[i] {
      if k < i {
        assert xs[k] < xs[i];
      }
    }
  }

  /** With no listed value above an unlisted request, it is above them all and snaps to
      the largest. */
  lemma SnapBeyond(xs: seq<real>, x: real)
    requires |xs| > 0 && Ascending(xs) && x !in xs
    requires Seqs.Find(xs, v => v > x).None?
    ensures x > xs[|xs| - 1] && Snap(xs, x) == xs[|xs| - 1]
  {
    var last := xs[|xs| - 1];
    assert !(last > x) && last != x;
    var m := MaxOf(xs);
    var j :| 0 <= j < |xs| && xs[j] == m;
    assert m <= last;
  }

  /** Snapping is idempotent: a snapped value is listed, so it stays. */
  lemma SnapIdempotent(xs: seq<real>, x: real)
    requires |xs| > 0
    ensures Snap(xs, Snap(xs, x)) == Snap(xs, x)
  {
    if x !in xs {
      var f := Seqs.Find(xs, v => v > x);
      if f.Some? {
        var k :| 0 <= k < |xs| && xs[k] == f.value;
      }
    }
  }

  lemma SizesAscending()
    ensures Ascending(AvailableSizes)
  {
  }

  lemma DensitiesAscending()
    ensures Ascending(Densities)
  {
  }

  /** A size between two available ones snaps up to the next; above 32 it is 32. */
  lemma SizeSnappingExamples()
    ensures Snap(AvailableSizes, 13.0) == 16.0 && Snap(AvailableSizes, 64.0) == 32.0
  {
    SizesAscending();
    SnapLeastAbove(AvailableSizes, 13.0);
    assert AvailableSizes[3] == 16.0;
    SnapLeastAbove(AvailableSizes, 64.0);
  }

  /** A density between listed ones snaps up; below 1 it is 1; above 4 it is 4. */
  lemma DensitySnappingExamples()
    ensures Snap(Densities, 2.5) == 3.0 && Snap(Densities, 5.0) == 4.0 && Snap(Densities, 0.5) == 1.0
  {
    DensitiesAscending();
    SnapLeastAbove(Densities, 2.5);
    assert Densities[3] == 3.0;
    SnapLeastAbove(Densities, 5.0);
    SnapLeastAbove(Densities, 0.5);
    assert Densities[0] == 1.0;
  }

  /** `getIconURL`: a name holding `/` is already an address. Otherwise the density
      snaps, and the local file is preferred when it exists; it is looked up with the
      REQUESTED size, while the remote address uses the snapped size. */
  function GetIconURL(name: string, size: real, density: real, show: real -> string,
                      localExists: string -> bool): (r: string)
    ensures '/' in name ==> r == name
    ensures '/' !in name ==>
      var d := Snap(Densities, density);
      var local := BuildLocalIconPath(name, size, d, show);
      r == if localExists(local) then local else BuildIconURL(name, Snap(AvailableSizes, size), d, show)
    ensures '/' !in name && !localExists(BuildLocalIconPath(name, size, Snap(Densities, density), show)) ==>
      Strings.StartsWith(r, UrlBase)
  {
    if '/' in name then name
    else
      var requestedSize := Snap(AvailableSizes, size);
      var d := Snap(Densities, density);
      var local := BuildLocalIconPath(name, size, d, show);
      if localExists(local) then local else BuildIconURL(name, requestedSize, d, show)
  }
}
