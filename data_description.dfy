/** The inline value editor of the data inspector
    (src/ui/components/data-inspector/DataDescription.tsx): parsing a colour value for the
    colour picker, packing the picked colour back into the value's own form, and the
    editing state machine (start editing, commit, cancel).

    Alpha is kept as a byte (0..255, where 255 is the picker's alpha 1); the picker's alpha
    is a `real` only where the source compares it with 1 or rounds it. */
module DataDescription {
  import opened Wrappers
  import opened Json
  import Strings
  import Int32

  // ---------------------------------------------------------------- parseInt(s, 16)

  /** The number of hex digits at the start of `s`. */
  function HexRunLength(s: string): (n: nat)
    ensures n <= |s| && Strings.AllDigits(s[..n], Strings.Hex)
    ensures n < |s| ==> Strings.DigitValue(s[n]) < 0
    ensures Strings.AllDigits(s, Strings.Hex) ==> n == |s|
    decreases |s|
  {
    if |s| == 0 || Strings.DigitValue(s[0]) < 0 then 0
    else
      var n := 1 + HexRunLength(s[1..]);
      assert s[..n] == [s[0]] + s[1..][..n - 1];
      n
  }

  /** `parseInt(s, 16)`: the value of the leading hex digits, or NaN (`None`) when there
      are none. */
  function ParseHex(s: string): (r: Option<nat>)
    ensures r.None? <==> |s| == 0 || Strings.DigitValue(s[0]) < 0
    ensures |s| > 0 && Strings.AllDigits(s, Strings.Hex) ==> r == Some(Strings.ParseDigits(s, Strings.Hex))
  {
    var n := HexRunLength(s);
    if n == 0 then None
    else
      assert Strings.AllDigits(s, Strings.Hex) ==> s[..n] == s;
      Some(Strings.ParseDigits(s[..n], Strings.Hex))
  }

  // ---------------------------------------------------------------- parseColor

  /** What `parseColor` returns: alpha (as a byte) and the three channels; `None` stands
      for NaN or a channel missing from the destructuring. */
  datatype ColorInfo = ColorInfo(a: Option<nat>, r: Option<nat>, g: Option<nat>, b: Option<nat>)

  /** The characters `.` does not match in a regular expression. */
  predicate LineTerminator(ch: char) {
    ch == '\n' || ch == '\r' || ch == '\U{2028}' || ch == '\U{2029}'
  }

  /** `s.match(/.{1,2}/g)`: successive chunks of two characters (one at the end or before a
      line terminator), skipping line terminators; the empty list stands for `null`. */
  function Chunks(s: string): (r: seq<string>)
    ensures forall k :: 0 <= k < |r| ==> 1 <= |r[k]| <= 2
    ensures (forall i :: 0 <= i < |s| ==> !LineTerminator(s[i])) ==> |r| == (|s| + 1) / 2
    decreases |s|
  {
    if |s| == 0 then []
    else if LineTerminator(s[0]) then Chunks(s[1..])
    else if |s| >= 2 && !LineTerminator(s[1]) then [s[..2]] + Chunks(s[2..])
    else [s[..1]] + Chunks(s[1..])
  }

  /** Element `i` of a list, or `undefined`. */
  function At(parts: seq<string>, i: nat): Option<string> {
    if i < |parts| then Some(parts[i]) else None
  }

  /** A channel as written: for a three-digit colour the chunk is doubled. */
  function Channel(chunk: Option<string>, size: nat): Option<nat> {
    if chunk.None? then None
    else if size == 3 then ParseHex(chunk.value + chunk.value)
    else ParseHex(chunk.value)
  }

  /** `parseColor` as written. A number gives its four bytes (alpha the highest); a string
      must be `#` and 3, 6 or 8 characters; the chunks are then alpha (8 characters only)
      and r, g, b. Any other value gives nothing. */
  function ParseColor(val: Value): (r: Option<ColorInfo>)
    ensures val.Num? ==> r == Some(ColorInfo(Some(Int32.Byte(val.n, 3)), Some(Int32.Byte(val.n, 2)),
                                             Some(Int32.Byte(val.n, 1)), Some(Int32.Byte(val.n, 0))))
    ensures !val.Num? && !val.Str? ==> r.None?
    ensures val.Str? && (|val.s| == 0 || val.s[0] != '#') ==> r.None?
    ensures val.Str? && |val.s| > 0 && |val.s| - 1 != 3 && |val.s| - 1 != 6 && |val.s| - 1 != 8 ==> r.None?
    ensures r.Some? && val.Str? && |val.s| != 9 ==> r.value.a == Some(255)
  {
    match val
    case Num(n) =>
      Some(ColorInfo(Some(Int32.Byte(n, 3)), Some(Int32.Byte(n, 2)), Some(Int32.Byte(n, 1)), Some(Int32.Byte(n, 0))))
    case Str(s) =>
      if |s| == 0 || s[0] != '#' then None
      else
        var hex := s[1..];
        var size := |hex|;
        if size != 3 && size != 6 && size != 8 then None
        else
          var parts := Chunks(hex);
          if |parts| == 0 then None
          else
            // `parts.shift() || '0'`: a chunk is never empty, so the default is never used.
            var a := if size == 8 then ParseHex(parts[0]) else Some(255);
            var rest := if size == 8 then parts[1..] else parts;
            Some(ColorInfo(a, Channel(At(rest, 0), size), Channel(At(rest, 1), size), Channel(At(rest, 2), size)))
    case _ => None
  }

  /** The value of the two hex digits at `s[i..i+2]`. */
  function Pair(s: string, i: nat): nat
    requires i + 2 <= |s| && Strings.AllDigits(s, Strings.Hex)
  {
    assert Strings.AllDigits(s[i..i + 2], Strings.Hex) by {
      var t := s[i..i + 2];
      assert t[0] == s[i] && t[1] == s[i + 1];
    }
    Strings.ParseDigits(s[i..i + 2], Strings.Hex)
  }

  /** Without line terminators, an even-length text is cut into its successive pairs. */
  lemma {:induction false} ChunksOfPairs(s: string)
    requires |s| % 2 == 0
    requires forall i :: 0 <= i < |s| ==> !LineTerminator(s[i])
    ensures |Chunks(s)| == |s| / 2
    ensures forall k :: 0 <= k < |s| / 2 ==> Chunks(s)[k] == s[2 * k..2 * k + 2]
    decreases |s|
  {
    if |s| > 0 {
      var t := s[2..];
      assert forall i :: 0 <= i < |t| ==> t[i] == s[i + 2];
      ChunksOfPairs(t);
      var c := Chunks(s);
      assert c == [s[..2]] + Chunks(t);
      forall k | 0 <= k < |s| / 2 ensures c[k] == s[2 * k..2 * k + 2] {
        if k > 0 {
          assert c[k] == Chunks(t)[k - 1] == t[2 * (k - 1)..2 * (k - 1) + 2];
        }
      }
    }
  }

  lemma ChunksOfDigits(hex: string)
    requires |hex| == 6 || |hex| == 8
    requires Strings.AllDigits(hex, Strings.Hex)
    ensures |Chunks(hex)| == |hex| / 2
    ensures forall k :: 0 <= k < |hex| / 2 ==> Chunks(hex)[k] == hex[2 * k..2 * k + 2]
  {
    forall i | 0 <= i < |hex| ensures !LineTerminator(hex[i]) {
      assert 0 <= Strings.DigitValue(hex[i]);
    }
    ChunksOfPairs(hex);
  }

  /** `#rrggbb` of hex digits: full alpha and the three pairs. */
  lemma ParseColorSixDigits(s: string)
    requires |s| == 7 && s[0] == '#' && Strings.AllDigits(s[1..], Strings.Hex)
    ensures ParseColor(Str(s)) == Some(ColorInfo(Some(255), Some(Pair(s[1..], 0)), Some(Pair(s[1..], 2)), Some(Pair(s[1..], 4))))
  {
    var hex := s[1..];
    ChunksOfDigits(hex);
    forall k | 0 <= k < 3 ensures ParseHex(hex[2 * k..2 * k + 2]) == Some(Pair(hex, 2 * k)) {
      assert Strings.AllDigits(hex[2 * k..2 * k + 2], Strings.Hex) by {
        var t := hex[2 * k..2 * k + 2];
        assert t[0] == hex[2 * k] && t[1] == hex[2 * k + 1];
      }
    }
  }

  /** `#aarrggbb` of hex digits: the first pair is alpha, the next three r, g, b. */
  lemma ParseColorEightDigits(s: string)
    requires |s| == 9 && s[0] == '#' && Strings.AllDigits(s[1..], Strings.Hex)
    ensures ParseColor(Str(s)) == Some(ColorInfo(Some(Pair(s[1..], 0)), Some(Pair(s[1..], 2)),
                                                 Some(Pair(s[1..], 4)), Some(Pair(s[1..], 6))))
  {
    var hex := s[1..];
    ChunksOfDigits(hex);
    forall k | 0 <= k < 4 ensures ParseHex(hex[2 * k..2 * k + 2]) == Some(Pair(hex, 2 * k)) {
      assert Strings.AllDigits(hex[2 * k..2 * k + 2], Strings.Hex) by {
        var t := hex[2 * k..2 * k + 2];
        assert t[0] == hex[2 * k] && t[1] == hex[2 * k + 1];
      }
    }
  }

  /** As written, a three-digit colour is cut into the chunks "ab" and "c", which are
      doubled: `#abc` reads as r = 0xabab, g = 0xcc and no b at all. */
  lemma ParseColorThreeDigitsAsWritten()
    ensures ParseColor(Str("#abc")) == Some(ColorInfo(Some(255), Some(0xabab), Some(0xcc), None))
  {
    assert "#abc"[1..] == "abc";
    ChunksABC();
    ParseABAB();
    ParseCC();
  }

  lemma ChunksABC()
    ensures Chunks("abc") == ["ab", "c"]
  {
    var hex := "abc";
    assert hex[..2] == "ab" && hex[2..] == "c";
    assert "c"[..1] == "c" && "c"[1..] == "";
  }

  lemma ParseABAB()
    ensures ParseHex("ab" + "ab") == Some(0xabab)
  {
    assert "ab" + "ab" == "abab";
    assert Strings.AllDigits("abab", Strings.Hex);
    assert "abab"[..3] == "aba" && "aba"[..2] == "ab" && "ab"[..1] == "a" && "a"[..0] == "";
  }

  lemma ParseCC()
    ensures ParseHex("c" + "c") == Some(0xcc)
  {
    assert "c" + "c" == "cc";
    assert Strings.AllDigits("cc", Strings.Hex);
    assert "cc"[..1] == "c" && "c"[..0] == "";
  }

  /** `parseColor` with the CSS shorthand it evidently means: `#rgb` stands for
      `#rrggbb`, each digit doubled. Other values are parsed as before. */
  function ParseColorCorrected(val: Value): (r: Option<ColorInfo>)
    ensures !(val.Str? && |val.s| == 4 && val.s[0] == '#') ==> r == ParseColor(val)
  {
    if val.Str? && |val.s| == 4 && val.s[0] == '#' then
      var hex := val.s[1..];
      var single := seq(3, k requires 0 <= k < 3 => [hex[k]]);
      if forall i :: 0 <= i < 3 ==> !LineTerminator(hex[i]) then
        Some(ColorInfo(Some(255), Channel(Some(single[0]), 3), Channel(Some(single[1]), 3), Channel(Some(single[2]), 3)))
      else ParseColor(val)
    else ParseColor(val)
  }

  /** With the shorthand read per digit, each channel of `#rgb` is its digit times 17
      (0x11), so `#abc` is 0xaa, 0xbb, 0xcc. */
  lemma ParseColorCorrectedShorthand(s: string)
    requires |s| == 4 && s[0] == '#' && Strings.AllDigits(s[1..], Strings.Hex)
    ensures ParseColorCorrected(Str(s)) == Some(ColorInfo(Some(255), Some(17 * Strings.DigitValue(s[1])),
                                                          Some(17 * Strings.DigitValue(s[2])), Some(17 * Strings.DigitValue(s[3]))))
  {
    var hex := s[1..];
    forall i | 0 <= i < 3 ensures !LineTerminator(hex[i]) {
      assert 0 <= Strings.DigitValue(hex[i]);
    }
    forall k | 0 <= k < 3 ensures ParseHex([hex[k]] + [hex[k]]) == Some(17 * Strings.DigitValue(hex[k])) {
      var x := hex[k];
      var d := [x] + [x];
      assert 0 <= Strings.DigitValue(x) < 16;
      assert Strings.AllDigits(d, Strings.Hex);
      assert d[..1] == [x] && [x][..0] == "";
      assert Strings.ParseDigits([x], Strings.Hex) == Strings.DigitValue(x);
      assert Strings.ParseDigits(d, Strings.Hex) == 16 * Strings.DigitValue(x) + Strings.DigitValue(x);
    }
  }

  // ---------------------------------------------------------------- ColorEditor.onChange

  /** `Math.round`: halves round up. */
  function Round(x: real): int {
    (x + 0.5).Floor
  }

  /** The alpha the picker reports: `color.rgb.a || 1`, so a missing alpha and an alpha of 0
      both become 1. */
  function PickerAlpha(a: Option<real>): (r: real)
    ensures a.None? || a.value == 0.0 ==> r == 1.0
    ensures a.Some? && a.value != 0.0 ==> r == a.value
  {
    if a.None? || a.value == 0.0 then 1.0 else a.value
  }

  /** `Math.round(a * 255)` as the alpha byte of a packed colour. */
  function AlphaByte(a: real): (r: int)
    ensures 0 <= r < 256
  {
    Round(a * 255.0) % 256
  }

  /** The number a picked colour packs to: its bytes, except that alpha is forced to 0xff
      when the previous colour was fully transparent and the RGB part changed. */
  function PickedNumber(alpha: int, r: int, g: int, b: int, prev: int): (v: int)
    requires 0 <= alpha < 256 && 0 <= r < 256 && 0 <= g < 256 && 0 <= b < 256
    ensures Int32.Byte(v, 2) == r && Int32.Byte(v, 1) == g && Int32.Byte(v, 0) == b
    ensures Int32.Byte(v, 3) ==
      if Int32.Byte(prev, 3) == 0 && Int32.Low24(prev) != r * 0x1_0000 + g * 0x100 + b then 0xff else alpha
  {
    var val := Int32.Pack(alpha, r, g, b);
    Int32.PackBytes(alpha, r, g, b);
    Int32.PackBytes(0xff, r, g, b);
    Int32.Low24Bytes(val);
    var prevClear := Int32.Byte(prev, 3) == 0;
    var onlyAlphaChanged := Int32.Low24(prev) == Int32.Low24(val);
    if !onlyAlphaChanged && prevClear then Int32.Pack(0xff, r, g, b) else val
  }

  /** `ColorEditor.onChange`: a string value becomes the picker's hex when alpha is 1 and an
      `rgba(...)` text otherwise; a number becomes the packed 32-bit colour, with alpha
      forced to 0xff when the previous colour was fully transparent and the RGB part
      changed; any other value commits nothing. `formatAlpha` prints the alpha number. */
  function OnChange(hex: string, a: real, r: int, g: int, b: int, prev: Value, formatAlpha: real -> string)
    : (res: Option<Value>)
    ensures res.Some? <==> prev.Str? || prev.Num?
    ensures prev.Str? && a == 1.0 ==> res == Some(Str(hex))
    ensures prev.Str? && a != 1.0 ==> res == Some(Str("rgba(" + Strings.IntToText(r) + ", " + Strings.IntToText(g)
                                                      + ", " + Strings.IntToText(b) + ", " + formatAlpha(a) + ")"))
    ensures prev.Num? ==> (res.Some? && res.value.Num?
      && Int32.Byte(res.value.n, 2) == r % 256 && Int32.Byte(res.value.n, 1) == g % 256 && Int32.Byte(res.value.n, 0) == b % 256)
    ensures prev.Num? ==> (Int32.Byte(res.value.n, 3) ==
      if Int32.Byte(prev.n, 3) == 0 && Int32.Low24(prev.n) != r % 256 * 0x1_0000 + g % 256 * 0x100 + b % 256
      then 0xff else AlphaByte(a))
  {
    match prev
    case Str(_) =>
      if a == 1.0 then Some(Str(hex))
      else Some(Str("rgba(" + Strings.IntToText(r) + ", " + Strings.IntToText(g) + ", " + Strings.IntToText(b)
                    + ", " + formatAlpha(a) + ")"))
    case Num(p) => Some(Num(PickedNumber(AlphaByte(a), r % 256, g % 256, b % 256, p)))
    case _ => None
  }

  /** A number the picker wrote reads back, through `parseColor`, as the picked channels. */
  lemma OnChangeParsesBack(hex: string, a: real, r: int, g: int, b: int, p: int, formatAlpha: real -> string)
    requires 0 <= r < 256 && 0 <= g < 256 && 0 <= b < 256
    ensures var res := OnChange(hex, a, r, g, b, Num(p), formatAlpha);
      res.Some? && ParseColor(res.value).Some?
      && ParseColor(res.value).value.r == Some(r) && ParseColor(res.value).value.g == Some(g)
      && ParseColor(res.value).value.b == Some(b)
  {
    var v := PickedNumber(AlphaByte(a), r, g, b, p);
    assert r % 256 == r && g % 256 == g && b % 256 == b;
    assert OnChange(hex, a, r, g, b, Num(p), formatAlpha) == Some(Num(v));
  }

  // ---------------------------------------------------------------- the editing state

  /** The options a editor commits with. */
  datatype CommitOptions = CommitOptions(value: Value, keep: bool, clear: bool, doSet: bool)

  /** `_hasEditUI`: the types with an editor. */
  predicate HasEditUI(typ: string) {
    typ == "string" || typ == "text" || typ == "number" || typ == "enum" || typ == "color"
  }

  datatype Editor = NumberTextEditor | ColorEditor

  /** The editor `_renderEditing` shows for a type. */
  function EditorFor(typ: string): (r: Option<Editor>)
    ensures r.Some? <==> HasEditUI(typ)
    ensures r == Some(ColorEditor) <==> typ == "color"
  {
    if typ == "string" || typ == "text" || typ == "number" || typ == "enum" then Some(NumberTextEditor)
    else if typ == "color" then Some(ColorEditor)
    else None
  }

  /** The text editor's key handling: Enter commits the current value (parsed as a number
      for the number type) and sets it; Escape restores the original value without keeping
      it; other keys do nothing. */
  function KeyDown(key: string, typ: string, value: Value, origValue: Value, parseFloat: Value -> Value)
    : (r: Option<CommitOptions>)
    ensures r.Some? <==> key == "Enter" || key == "Escape"
    ensures key == "Enter" ==> (r.value.clear && r.value.keep && r.value.doSet
      && r.value.value == (if typ == "number" then parseFloat(value) else value))
    ensures key == "Escape" ==> r.value == CommitOptions(origValue, false, true, false)
  {
    if key == "Enter" then
      Some(CommitOptions(if typ == "number" then parseFloat(value) else value, true, true, true))
    else if key == "Escape" then Some(CommitOptions(origValue, false, true, false))
    else None
  }

  /** The text editor's change: keep the typed value without setting it. */
  function InputChange(typ: string, text: Value, parseFloat: Value -> Value): (r: CommitOptions)
    ensures r.keep && !r.clear && !r.doSet
    ensures r.value == (if typ == "number" then parseFloat(text) else text)
  {
    CommitOptions(if typ == "number" then parseFloat(text) else text, true, false, false)
  }

  /** The text editor losing focus: set the current value and stop editing. */
  function TextBlur(value: Value): (r: CommitOptions)
    ensures r.keep && r.clear && r.doSet && r.value == value
  {
    CommitOptions(value, true, true, true)
  }

  /** The colour editor losing focus: stop editing without keeping anything. */
  function ColorBlur(value: Value): (r: CommitOptions)
    ensures !r.keep && r.clear
  {
    CommitOptions(value, false, true, true)
  }

  /** A picked colour: keep and set it, and go on editing. */
  function ColorCommit(value: Value): (r: CommitOptions)
    ensures r.keep && !r.clear && r.doSet && r.value == value
  {
    CommitOptions(value, true, false, true)
  }

  class DataDescriptionState {
    const typ: string
    const propValue: Value
    const path: Option<seq<string>>
    /** Whether a `setValue` callback was given. */
    const hasSetValue: bool
    var editing: bool
    var origValue: Value
    var value: Value
    /** The `setValue(path, value)` calls made, oldest first. */
    var setCalls: seq<(seq<string>, Value)>

    constructor (typ: string, propValue: Value, path: Option<seq<string>>, hasSetValue: bool)
      ensures this.typ == typ && this.propValue == propValue && this.path == path && this.hasSetValue == hasSetValue
      ensures !editing && origValue == Str("") && value == Str("") && setCalls == []
    {
      this.typ := typ;
      this.propValue := propValue;
      this.path := path;
      this.hasSetValue := hasSetValue;
      editing := false;
      origValue := Str("");
      value := Str("");
      setCalls := [];
    }

    /** `onEditStart`: editing only for a type with an editor; both values become the
        prop's value. */
    method OnEditStart()
      modifies this`editing, this`origValue, this`value
      ensures editing == HasEditUI(typ)
      ensures origValue == propValue && value == propValue
    {
      editing := HasEditUI(typ);
      origValue := propValue;
      value := propValue;
    }

    /** `commit`: with `keep`, a setter and a path the value is stored, and passed to the
        setter when `set`; with `clear` editing stops and both values are reset. */
    method Commit(opts: CommitOptions)
      modifies this`editing, this`origValue, this`value, this`setCalls
      ensures opts.keep && hasSetValue && path.Some? && opts.doSet ==> setCalls == old(setCalls) + [(path.value, opts.value)]
      ensures !(opts.keep && hasSetValue && path.Some? && opts.doSet) ==> setCalls == old(setCalls)
      ensures opts.clear ==> !editing && origValue == Str("") && value == Str("")
      ensures !opts.clear ==> editing == old(editing) && origValue == old(origValue)
      ensures !opts.clear && opts.keep && hasSetValue && path.Some? ==> value == opts.value
      ensures !opts.clear && !(opts.keep && hasSetValue && path.Some?) ==> value == old(value)
    {
      if opts.keep && hasSetValue && path.Some? {
        var val := opts.value;
        value := val;
        if opts.doSet {
          setCalls := setCalls + [(path.value, val)];
        }
      }
      if opts.clear {
        editing := false;
        origValue := Str("");
        value := Str("");
      }
    }
  }
}
