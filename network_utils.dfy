/** Helpers of the network inspector (src/plugins/network/utils.js): case-insensitive
    header lookup, the body shown for a request, and the `curl` command line that
    reproduces a request, with every argument quoted for a POSIX shell.

    An argument that needs escaping is written in bash's ANSI-C quoting, `$'…'`, where
    `\uHHHH` stands for the character with hex code HHHH given by ONE TO FOUR hex digits.
    `Unescape`/`DecodeWord` model that reading of a word, for the escapes the encoder
    emits, so that the encoder can be checked against it. */
module NetworkUtils {
  import opened Wrappers
  import Strings

  datatype Header = Header(key: string, value: string)

  /** The parts of a request the command is built from; `data` is the base64 body. */
  datatype Request = Request(methodName: string, url: string, headers: seq<Header>, data: Option<string>)

  // ---------------------------------------------------------------- headers

  predicate KeyMatches(h: Header, key: string) {
    Strings.ToLower(h.key) == Strings.ToLower(key)
  }

  /** The value of the first header whose key equals `key` ignoring case, or "". */
  function HeaderValue(headers: seq<Header>, key: string): (r: string)
    ensures (forall i :: 0 <= i < |headers| ==> !KeyMatches(headers[i], key)) ==> r == ""
    ensures forall i :: (0 <= i < |headers| && KeyMatches(headers[i], key)
      && (forall j :: 0 <= j < i ==> !KeyMatches(headers[j], key))) ==> r == headers[i].value
    decreases |headers|
  {
    if |headers| == 0 then ""
    else if KeyMatches(headers[0], key) then headers[0].value
    else
      var r := HeaderValue(headers[1..], key);
      assert forall i :: 1 <= i < |headers| ==> headers[i] == headers[1..][i - 1];
      r
  }

  /** `getHeaderValue`: the loop with an early return. */
  method GetHeaderValue(headers: seq<Header>, key: string) returns (r: string)
    ensures r == HeaderValue(headers, key)
  {
    var i := 0;
    while i < |headers|
      invariant 0 <= i <= |headers|
      invariant forall j :: 0 <= j < i ==> !KeyMatches(headers[j], key)
    {
      if Strings.ToLower(headers[i].key) == Strings.ToLower(key) {
        return headers[i].value;
      }
      i := i + 1;
    }
    return "";
  }

  lemma LowerCharIdempotent(ch: char)
    ensures Strings.LowerChar(Strings.LowerChar(ch)) == Strings.LowerChar(ch)
  {
  }

  /** The lookup does not depend on the case of the key asked for. */
  lemma HeaderValueIgnoresCase(headers: seq<Header>, key: string)
    ensures HeaderValue(headers, Strings.ToLower(key)) == HeaderValue(headers, key)
  {
    var lower := Strings.ToLower(key);
    forall ch {
      LowerCharIdempotent(ch);
    }
    assert Strings.ToLower(lower) == lower;
    forall h ensures KeyMatches(h, lower) <==> KeyMatches(h, key) {
    }
  }

  /** `decodeBody`: no data, no body. Base64 decoding, inflating and UTF-8 decoding are
      parameters; a body that does not decode as UTF-8 is discarded. */
  function DecodeBody(data: Option<string>, headers: seq<Header>, base64Decode: string -> string,
                      decompress: string -> string, utf8Decode: string -> Option<string>): (r: string)
    ensures data.None? || data.value == "" ==> r == ""
    ensures data.Some? && data.value != "" && HeaderValue(headers, "Content-Encoding") == "gzip" ==>
      r == utf8Decode(decompress(base64Decode(data.value))).UnwrapOr("")
    ensures data.Some? && data.value != "" && HeaderValue(headers, "Content-Encoding") != "gzip" ==>
      r == utf8Decode(base64Decode(data.value)).UnwrapOr("")
  {
    if data.None? || data.value == "" then ""
    else
      var decoded := base64Decode(data.value);
      var body := if HeaderValue(headers, "Content-Encoding") == "gzip" then decompress(decoded) else decoded;
      utf8Decode(body).UnwrapOr("")
  }

  // ---------------------------------------------------------------- escaping

  /** The characters of `/[\u0000-\u001f\u007f-\u009f!]/`. */
  predicate NeedsEscaping(ch: char) {
    ch as int <= 0x1f || (0x7f <= ch as int <= 0x9f) || ch == '!'
  }

  /** Whether `escapedString` switches to `$'…'`: an escaping character or a quote. */
  predicate NeedsQuoting(s: string) {
    (exists i :: 0 <= i < |s| && NeedsEscaping(s[i])) || '\'' in s
  }

  /** `escapeCharacter` as written: `\u0` and the hex code below 16, `\u` and the hex code
      otherwise. For the characters it is used on that is always two hex digits after the
      `\u`, which read back as the code. */
  function EscapeCharacterAsWritten(ch: char): (r: string)
    ensures Strings.StartsWith(r, "\\u")
    ensures NeedsEscaping(ch) ==>
      |r| == 4 && Strings.AllDigits(r[2..], Strings.Hex) && Strings.ParseDigits(r[2..], Strings.Hex) == ch as int
  {
    var code := ch as int;
    var digits := Strings.NatToText(code, Strings.Hex);
    if code < 16 then
      TwoDigitsPadded(code);
      "\\u0" + digits
    else
      TwoDigits(code);
      "\\u" + digits
  }

  /** A code below 16 is one hex digit; after a `0` it reads back the same. */
  lemma TwoDigitsPadded(code: nat)
    requires code < 16
    ensures var r := "\\u0" + Strings.NatToText(code, Strings.Hex);
      |r| == 4 && r[2..] == "0" + Strings.NatToText(code, Strings.Hex)
      && Strings.AllDigits(r[2..], Strings.Hex) && Strings.ParseDigits(r[2..], Strings.Hex) == code
  {
    var t := "0" + Strings.NatToText(code, Strings.Hex);
    assert t[..1] == "0" && t[..1][..0] == "";
    assert Strings.ParseDigits("", Strings.Hex) == 0;
  }

  /** A code from 16 up to 255 is two hex digits, which read back as the code. */
  lemma TwoDigits(code: nat)
    requires 16 <= code
    ensures var r := "\\u" + Strings.NatToText(code, Strings.Hex);
      code < 256 ==>
        (|r| == 4 && r[2..] == Strings.NatToText(code, Strings.Hex)
         && Strings.AllDigits(r[2..], Strings.Hex) && Strings.ParseDigits(r[2..], Strings.Hex) == code)
  {
    Strings.ParseNatToText(code, Strings.Hex);
    if code < 256 {
      assert |Strings.NatToText(code / 16, Strings.Hex)| == 1;
    }
  }

  /** Four lower-case hex digits of a code below 0x10000. */
  function Hex4(code: nat): (r: string)
    requires code < 0x10000
    ensures |r| == 4 && Strings.AllDigits(r, Strings.Hex)
  {
    var q1 := code / 16;
    var q2 := q1 / 16;
    var q3 := q2 / 16;
    [Strings.DigitChar(q3), Strings.DigitChar(q2 % 16), Strings.DigitChar(q1 % 16), Strings.DigitChar(code % 16)]
  }

  /** `escapeCharacter` with the code padded to four hex digits. */
  function EscapeCharacter(ch: char): (r: string)
    requires NeedsEscaping(ch)
    ensures |r| == 6 && r[..2] == "\\u"
  {
    "\\u" + Hex4(ch as int)
  }

  /** `s.replace(/c/g, rep)`: every occurrence of the character replaced. */
  function ReplaceChar(s: string, c: char, rep: string): (r: string)
    ensures c !in s ==> r == s
    decreases |s|
  {
    if |s| == 0 then ""
    else (if s[0] == c then rep else [s[0]]) + ReplaceChar(s[1..], c, rep)
  }

  /** What `escapeCharacter` makes of one character, padded or as written; other
      characters stay. */
  function EscapedChar(ch: char, padded: bool): string {
    if !NeedsEscaping(ch) then [ch]
    else if padded then EscapeCharacter(ch) else EscapeCharacterAsWritten(ch)
  }

  /** `s.replace(needsEscapingRegex, escapeCharacter)`, padded or as written. */
  function ReplaceEscaping(s: string, padded: bool): (r: string)
    ensures (forall i :: 0 <= i < |s| ==> !NeedsEscaping(s[i])) ==> r == s
    decreases |s|
  {
    if |s| == 0 then ""
    else EscapedChar(s[0], padded) + ReplaceEscaping(s[1..], padded)
  }

  /** The body between `$'` and `'`: backslashes, quotes, newlines and carriage returns
      are escaped first, then the remaining characters that need it. */
  function EscapeBody(s: string, padded: bool): string {
    Chain(s, padded)
  }

  /** `escapedString`, padded or as written: a string with nothing to escape and no
      single quote goes between single quotes as it is; any other becomes a `$'…'` word. */
  function EscapedStringWith(s: string, padded: bool): (r: string)
    ensures !NeedsQuoting(s) ==> r == "'" + s + "'"
    ensures NeedsQuoting(s) ==> Strings.StartsWith(r, "$'") && Strings.EndsWith(r, "'")
  {
    if NeedsQuoting(s) then
      var body := EscapeBody(s, padded);
      Strings.StartsWithConcat("$'", body + "'");
      Strings.EndsWithConcat("$'" + body, "'");
      "$'" + body + "'"
    else "'" + s + "'"
  }

  /** `escapedString` as written; it agrees with the corrected quoting on every string
      with nothing to escape and no single quote. */
  function EscapedStringAsWritten(s: string): (r: string)
    ensures !NeedsQuoting(s) ==> r == EscapedString(s)
  {
    EscapedStringWith(s, false)
  }

  /** `escapedString` with four-digit `\u` escapes; the shell reads it back as `s`. */
  function EscapedString(s: string): (r: string)
    ensures DecodeWord(r) == Some(s)
  {
    EscapedStringRoundTrip(s);
    EscapedStringWith(s, true)
  }

  // ---------------------------------------------------------------- reading a word back

  /** The number of hex digits (at most `max`) at the start of `s`. */
  function HexRun(s: string, max: nat): (n: nat)
    ensures n <= max && n <= |s|
    ensures Strings.AllDigits(s[..n], Strings.Hex)
    decreases max
  {
    if max == 0 || |s| == 0 || Strings.DigitValue(s[0]) < 0 then 0
    else
      var n := 1 + HexRun(s[1..], max - 1);
      assert s[..n] == [s[0]] + s[1..][..n - 1];
      n
  }

  /** What bash makes of the text inside `$'…'`, for the escapes `\\`, `\'`, `\n`, `\r`
      and `\u` with one to four hex digits; any other escape, a lone quote or a code that
      is no character is outside this model (`None`). */
  function Unescape(s: string): Option<string>
    decreases |s|
  {
    if |s| == 0 then Some("")
    else if s[0] == '\'' then None
    else if s[0] != '\\' then Prepend(s[0], Unescape(s[1..]))
    else if |s| == 1 then None
    else if s[1] == '\\' then Prepend('\\', Unescape(s[2..]))
    else if s[1] == '\'' then Prepend('\'', Unescape(s[2..]))
    else if s[1] == 'n' then Prepend('\n', Unescape(s[2..]))
    else if s[1] == 'r' then Prepend('\r', Unescape(s[2..]))
    else if s[1] == 'u' then
      var n := HexRun(s[2..], 4);
      if n == 0 then None
      else
        var code := Strings.ParseDigits(s[2..][..n], Strings.Hex);
        if 0xD800 <= code < 0xE000 || code >= 0x110000 then None
        else Prepend(code as char, Unescape(s[2 + n..]))
    else None
  }

  function Prepend(ch: char, rest: Option<string>): Option<string> {
    if rest.Some? then Some([ch] + rest.value) else None
  }

  /** What bash makes of one quoted word: `$'…'` is unescaped, `'…'` is taken literally. */
  function DecodeWord(w: string): Option<string> {
    if |w| >= 3 && w[..2] == "$'" && w[|w| - 1] == '\'' then Unescape(w[2..|w| - 1])
    else if |w| >= 2 && w[0] == '\'' && w[|w| - 1] == '\'' && '\'' !in w[1..|w| - 1] then Some(w[1..|w| - 1])
    else None
  }

  // ---------------------------------------------------------------- the round trip

  /** How one character of the input comes out of the escaping chain. */
  function EscapeOne(ch: char, padded: bool): string {
    if ch == '\\' then "\\\\"
    else if ch == '\'' then "\\'"
    else if ch == '\n' then "\\n"
    else if ch == '\r' then "\\r"
    else if NeedsEscaping(ch) then (if padded then EscapeCharacter(ch) else EscapeCharacterAsWritten(ch))
    else [ch]
  }

  lemma {:induction false} ReplaceCharAppend(a: string, b: string, c: char, rep: string)
    ensures ReplaceChar(a + b, c, rep) == ReplaceChar(a, c, rep) + ReplaceChar(b, c, rep)
    decreases |a|
  {
    if |a| > 0 {
      assert (a + b)[1..] == a[1..] + b;
      ReplaceCharAppend(a[1..], b, c, rep);
    } else {
      assert a + b == b;
    }
  }

  lemma {:induction false} ReplaceEscapingAppend(a: string, b: string, padded: bool)
    ensures ReplaceEscaping(a + b, padded) == ReplaceEscaping(a, padded) + ReplaceEscaping(b, padded)
    decreases |a|
  {
    if |a| > 0 {
      var x := EscapedChar(a[0], padded);
      assert (a + b)[0] == a[0] && (a + b)[1..] == a[1..] + b;
      assert ReplaceEscaping(a + b, padded) == x + ReplaceEscaping(a[1..] + b, padded);
      ReplaceEscapingAppend(a[1..], b, padded);
      assert ReplaceEscaping(a, padded) == x + ReplaceEscaping(a[1..], padded);
    } else {
      assert a + b == b;
    }
  }

  lemma ReplaceCharCons(ch: char, s: string, c: char, rep: string)
    ensures ReplaceChar([ch] + s, c, rep) == (if ch == c then rep else [ch]) + ReplaceChar(s, c, rep)
  {
    assert ([ch] + s)[1..] == s;
  }

  /** The replacement chain applied to any text. */
  function Chain(t: string, padded: bool): string {
    ReplaceEscaping(
      ReplaceChar(ReplaceChar(ReplaceChar(ReplaceChar(t, '\\', "\\\\"), '\'', "\\'"), '\n', "\\n"), '\r', "\\r"),
      padded)
  }

  lemma ChainAppend(a: string, b: string, padded: bool)
    ensures Chain(a + b, padded) == Chain(a, padded) + Chain(b, padded)
  {
    ReplaceCharAppend(a, b, '\\', "\\\\");
    var a1, b1 := ReplaceChar(a, '\\', "\\\\"), ReplaceChar(b, '\\', "\\\\");
    ReplaceCharAppend(a1, b1, '\'', "\\'");
    var a2, b2 := ReplaceChar(a1, '\'', "\\'"), ReplaceChar(b1, '\'', "\\'");
    ReplaceCharAppend(a2, b2, '\n', "\\n");
    var a3, b3 := ReplaceChar(a2, '\n', "\\n"), ReplaceChar(b2, '\n', "\\n");
    ReplaceCharAppend(a3, b3, '\r', "\\r");
    var a4, b4 := ReplaceChar(a3, '\r', "\\r"), ReplaceChar(b3, '\r', "\\r");
    ReplaceEscapingAppend(a4, b4, padded);
  }

  lemma ReplaceCharSingle(ch: char, c: char, rep: string)
    ensures ReplaceChar([ch], c, rep) == if ch == c then rep else [ch]
  {
    assert [ch][1..] == "";
  }

  lemma ReplaceEscapingSingle(ch: char, padded: bool)
    ensures ReplaceEscaping([ch], padded) == EscapedChar(ch, padded)
  {
    assert [ch][1..] == "";
  }

  /** The chain on one character: the first four replacements give `EscapeOne` for
      their own characters and leave any other character alone. */
  lemma ChainOne(ch: char, padded: bool)
    ensures Chain([ch], padded) == EscapeOne(ch, padded)
  {
    var a1 := ReplaceChar([ch], '\\', "\\\\");
    var a2 := ReplaceChar(a1, '\'', "\\'");
    var a3 := ReplaceChar(a2, '\n', "\\n");
    var a4 := ReplaceChar(a3, '\r', "\\r");
    assert Chain([ch], padded) == ReplaceEscaping(a4, padded);
    ReplaceCharSingle(ch, '\\', "\\\\");
    if ch == '\\' || ch == '\'' || ch == '\n' || ch == '\r' {
      assert a4 == EscapeOne(ch, padded) by {
        ChainShort(ch, a1, a2, a3, a4);
      }
      assert |a4| == 2 && a4[0] == '\\' && a4[1] in "\\'nr";
      assert ReplaceEscaping(a4, padded) == a4 by {
        assert !NeedsEscaping(a4[0]) && !NeedsEscaping(a4[1]);
      }
    } else {
      ReplaceCharSingle(ch, '\'', "\\'");
      ReplaceCharSingle(ch, '\n', "\\n");
      ReplaceCharSingle(ch, '\r', "\\r");
      assert a4 == [ch];
      ReplaceEscapingSingle(ch, padded);
    }
  }

  /** For one of the four characters, its replacement and then no other. */
  lemma ChainShort(ch: char, a1: string, a2: string, a3: string, a4: string)
    requires ch == '\\' || ch == '\'' || ch == '\n' || ch == '\r'
    requires a1 == ReplaceChar([ch], '\\', "\\\\") && a2 == ReplaceChar(a1, '\'', "\\'")
    requires a3 == ReplaceChar(a2, '\n', "\\n") && a4 == ReplaceChar(a3, '\r', "\\r")
    ensures a4 == EscapeOne(ch, true)
  {
    ReplaceCharSingle(ch, '\\', "\\\\");
    if ch == '\\' {
      assert a1 == "\\\\";
      assert a2 == a1 && a3 == a2 && a4 == a3;
    } else {
      ReplaceCharSingle(ch, '\'', "\\'");
      if ch == '\'' {
        assert a2 == "\\'";
        assert a3 == a2 && a4 == a3;
      } else {
        ReplaceCharSingle(ch, '\n', "\\n");
        if ch == '\n' {
          assert a3 == "\\n";
          assert a4 == a3;
        } else {
          ReplaceCharSingle(ch, '\r', "\\r");
        }
      }
    }
  }

  /** The replacements act character by character. */
  lemma EscapeBodyCons(ch: char, s: string, padded: bool)
    ensures EscapeBody([ch] + s, padded) == EscapeOne(ch, padded) + EscapeBody(s, padded)
  {
    ChainAppend([ch], s, padded);
    ChainOne(ch, padded);
  }

  lemma ParseHex4(code: nat)
    requires code < 0x10000
    ensures Strings.ParseDigits(Hex4(code), Strings.Hex) == code
  {
    var h := Hex4(code);
    var q1 := code / 16;
    var q2 := q1 / 16;
    var q3 := q2 / 16;
    assert h[..3][..2][..1][..0] == "";
    assert h[..3][..2][..1] == [h[0]];
    assert h[..3][..2] == [h[0], h[1]];
    assert h[..3] == [h[0], h[1], h[2]];
    assert Strings.ParseDigits([h[0]], Strings.Hex) == q3;
    assert Strings.ParseDigits([h[0], h[1]], Strings.Hex) == q2;
    assert Strings.ParseDigits([h[0], h[1], h[2]], Strings.Hex) == q1;
  }

  /** Reading one escaped character back gives the character. */
  lemma UnescapeOne(ch: char, t: string)
    ensures Unescape(EscapeOne(ch, true) + t) == Prepend(ch, Unescape(t))
  {
    if ch == '\\' || ch == '\'' || ch == '\n' || ch == '\r' {
      UnescapeShort(ch, t);
    } else if NeedsEscaping(ch) {
      UnescapeCode(ch, t);
    } else {
      var w := EscapeOne(ch, true) + t;
      assert w == [ch] + t;
      assert w[1..] == t;
    }
  }

  /** The two-character escapes `\\`, `\'`, `\n` and `\r`. */
  lemma UnescapeShort(ch: char, t: string)
    requires ch == '\\' || ch == '\'' || ch == '\n' || ch == '\r'
    ensures Unescape(EscapeOne(ch, true) + t) == Prepend(ch, Unescape(t))
  {
    var w := EscapeOne(ch, true) + t;
    assert |EscapeOne(ch, true)| == 2 && EscapeOne(ch, true)[0] == '\\';
    assert w[0] == '\\' && w[1] == EscapeOne(ch, true)[1];
    assert w[2..] == t;
  }

  /** A `\u` escape with four hex digits. */
  lemma UnescapeCode(ch: char, t: string)
    requires NeedsEscaping(ch) && ch != '\\' && ch != '\'' && ch != '\n' && ch != '\r'
    ensures Unescape(EscapeOne(ch, true) + t) == Prepend(ch, Unescape(t))
  {
    var h := Hex4(ch as int);
    var w := "\\u" + h + t;
    assert EscapeOne(ch, true) + t == w;
    assert w[0] == '\\' && w[1] == 'u' && w[2..] == h + t;
    HexRunFour(h, t);
    ParseHex4(ch as int);
    assert w[2..][..4] == h;
    UnescapeHexEscape(w, 4);
    assert w[2 + 4..] == t;
  }

  /** Four hex digits are read whole, whatever follows them. */
  lemma HexRunFour(h: string, t: string)
    requires |h| == 4 && Strings.AllDigits(h, Strings.Hex)
    ensures HexRun(h + t, 4) == 4
  {
    var s := h + t;
    assert 0 <= Strings.DigitValue(s[0]) && 0 <= Strings.DigitValue(s[1]);
    assert 0 <= Strings.DigitValue(s[2]) && 0 <= Strings.DigitValue(s[3]);
    assert s[1..][0] == s[1] && s[1..][1..][0] == s[2] && s[1..][1..][1..][0] == s[3];
  }

  lemma {:induction false} UnescapeEscapeBody(s: string)
    ensures Unescape(EscapeBody(s, true)) == Some(s)
    decreases |s|
  {
    if |s| == 0 {
      assert EscapeBody(s, true) == "";
    } else {
      assert s == [s[0]] + s[1..];
      EscapeBodyCons(s[0], s[1..], true);
      UnescapeOne(s[0], EscapeBody(s[1..], true));
      UnescapeEscapeBody(s[1..]);
    }
  }

  /** Every string survives quoting: the shell reads the argument back unchanged. */
  lemma EscapedStringRoundTrip(s: string)
    ensures DecodeWord(EscapedStringWith(s, true)) == Some(s)
  {
    var w := EscapedStringWith(s, true);
    if NeedsQuoting(s) {
      var body := EscapeBody(s, true);
      assert w == "$'" + body + "'";
      UnescapeEscapeBody(s);
      assert w[..2] == "$'" && w[|w| - 1] == '\'';
      assert w[2..|w| - 1] == body;
    } else {
      assert w == "'" + s + "'";
      assert w[0] == '\'' && w[|w| - 1] == '\'';
      assert w[..2] != "$'" by {
        assert w[..2][0] == '\'';
      }
      assert w[1..|w| - 1] == s;
      assert '\'' !in s;
    }
  }

  /** As written, an escaped character followed by a hex digit loses its end: `!a` is
      quoted as `$'\u21a'`, which the shell reads as the single character U+021A. */
  lemma EscapedStringAsWrittenCorrupts()
    ensures DecodeWord(EscapedStringAsWritten("!a")) == Some([0x21a as char])
    ensures DecodeWord(EscapedStringAsWritten("!a")) != Some("!a")
  {
    assert "!a"[0] == '!' && NeedsEscaping('!');
    assert NeedsQuoting("!a");
    EscapeBodyBang();
    assert EscapedStringAsWritten("!a") == "$'" + "\\u21a" + "'";
    DecodeDollarQuoted("\\u21a");
    UnescapeBang();
    assert |[0x21a as char]| != |"!a"|;
  }

  /** Bash reads a `$'…'` word by unescaping what lies between the quotes. */
  lemma DecodeDollarQuoted(body: string)
    ensures DecodeWord("$'" + body + "'") == Unescape(body)
  {
    var w := "$'" + body + "'";
    assert w[..2] == "$'" && w[|w| - 1] == '\'';
    assert w[2..|w| - 1] == body;
  }

  /** As written, `!a` escapes to `\u21a`. */
  lemma EscapeBodyBang()
    ensures EscapeBody("!a", false) == "\\u21a"
  {
    assert "!a" == ['!'] + "a" && "a" == ['a'] + "";
    EscapeBodyCons('!', "a", false);
    EscapeBodyCons('a', "", false);
    assert EscapeBody("", false) == "";
    EscapeOneBang();
    assert EscapeOne('a', false) == "a";
  }

  lemma EscapeOneBang()
    ensures EscapeOne('!', false) == "\\u21"
  {
    assert Strings.NatToText(33, Strings.Hex) == "21" by {
      var hex := Strings.Hex;
      assert hex.Quot(33) == 2 && hex.Rem(33) == 1;
    }
  }

  /** Bash reads `\u21a` as the one character U+021A. */
  lemma UnescapeBang()
    ensures Unescape("\\u21a") == Some([0x21a as char])
  {
    HexRunBang();
    ParseBang();
    UnescapeLoneHexEscape("21a");
  }

  /** A word that is one `\u` escape of hex digits naming a character reads as that character. */
  lemma UnescapeLoneHexEscape(digits: string)
    requires HexRun(digits, 4) == |digits| > 0
    requires Strings.ParseDigits(digits, Strings.Hex) < 0xD800
    ensures Unescape("\\u" + digits) == Some([Strings.ParseDigits(digits, Strings.Hex) as char])
  {
    var s := "\\u" + digits;
    var n := |digits|;
    assert s[2..] == digits;
    assert s[2..][..n] == digits;
    assert s[2 + n..] == [];
    UnescapeHexEscape(s, n);
    assert Unescape(s[2 + n..]) == Some([]);
    var c := Strings.ParseDigits(digits, Strings.Hex) as char;
    assert Prepend(c, Some([])) == Some([c]) by {
      assert [c] + [] == [c];
    }
  }

  /** A `\u` escape of `n` hex digits naming a character reads as that character. */
  lemma UnescapeHexEscape(s: string, n: nat)
    requires |s| >= 2 && s[0] == '\\' && s[1] == 'u'
    requires n == HexRun(s[2..], 4) && n > 0
    requires Strings.ParseDigits(s[2..][..n], Strings.Hex) < 0xD800
    ensures Unescape(s) == Prepend(Strings.ParseDigits(s[2..][..n], Strings.Hex) as char, Unescape(s[2 + n..]))
  {
  }

  lemma HexRunBang()
    ensures HexRun("21a", 4) == 3
  {
    assert "21a"[1..] == "1a" && "1a"[1..] == "a" && "a"[1..] == "";
  }

  lemma ParseBang()
    ensures Strings.AllDigits("21a", Strings.Hex)
    ensures Strings.ParseDigits("21a", Strings.Hex) == 0x21a
  {
    assert "21a"[..2] == "21";
    assert "21"[..1] == "2";
    assert "2"[..0] == "";
  }

  // ---------------------------------------------------------------- the curl command

  /** `curl -v -X <method> <url>`, each argument quoted by `quote`: `escapedString` as
      written (`EscapedStringAsWritten`) or with four-digit escapes (`EscapedString`). */
  function CurlHead(request: Request, quote: string -> string): (r: string)
    ensures Strings.StartsWith(r, "curl -v -X " + request.methodName + " ")
    ensures Strings.EndsWith(r, quote(request.url))
  {
    var head := "curl -v -X " + request.methodName + " ";
    Strings.StartsWithConcat(head, quote(request.url));
    Strings.EndsWithConcat(head, quote(request.url));
    head + quote(request.url)
  }

  /** The command after the first `n` headers: ` -H <key>: <value>` for each, in order. */
  function CurlPrefix(request: Request, n: nat, quote: string -> string): (r: string)
    requires n <= |request.headers|
    ensures Strings.StartsWith(r, CurlHead(request, quote))
    ensures n > 0 ==> Strings.EndsWith(r, " -H " + quote(request.headers[n - 1].key + ": " + request.headers[n - 1].value))
  {
    if n == 0 then CurlHead(request, quote)
    else
      var h := request.headers[n - 1];
      var before := CurlPrefix(request, n - 1, quote);
      var arg := " -H " + quote(h.key + ": " + h.value);
      Strings.StartsWithConcat(before, arg);
      Strings.EndsWithConcat(before, arg);
      before + arg
  }

  /** The command `convertRequestToCurlCommand` builds around an already decoded body. */
  function CurlCommand(request: Request, body: string, quote: string -> string): (r: string)
    ensures Strings.StartsWith(r, CurlPrefix(request, |request.headers|, quote))
  {
    var prefix := CurlPrefix(request, |request.headers|, quote);
    Strings.StartsWithConcat(prefix, if body != "" then " -d " + quote(body) else "");
    prefix + (if body != "" then " -d " + quote(body) else "")
  }

  /** A non-empty body is the last argument, quoted; an empty body adds no `-d`. */
  lemma CurlCommandEndsWithBody(request: Request, body: string, quote: string -> string)
    ensures body != "" ==> Strings.EndsWith(CurlCommand(request, body, quote), " -d " + quote(body))
    ensures body == "" ==> CurlCommand(request, body, quote) == CurlPrefix(request, |request.headers|, quote)
  {
    if body != "" {
      var c := CurlCommand(request, body, quote);
      var w := " -d " + quote(body);
      assert c[|c| - |w|..] == w;
    }
  }

  /** With four-digit escapes a non-empty body is the last argument, and the shell reads
      it back unchanged; an empty body adds no `-d`. */
  lemma CurlCommandCarriesBody(request: Request, body: string)
    ensures body != "" ==> (Strings.EndsWith(CurlCommand(request, body, EscapedString), " -d " + EscapedString(body))
      && DecodeWord(EscapedString(body)) == Some(body))
    ensures body == "" ==> CurlCommand(request, body, EscapedString) == CurlPrefix(request, |request.headers|, EscapedString)
  {
    CurlCommandEndsWithBody(request, body, EscapedString);
  }

  /** As written, the command for the body `!a` ends in `-d $'\u21a'`, which the shell
      reads as the single character U+021A. */
  lemma CurlCommandAsWrittenCorruptsBody(request: Request)
    ensures Strings.EndsWith(CurlCommand(request, "!a", EscapedStringAsWritten), " -d " + EscapedStringAsWritten("!a"))
    ensures DecodeWord(EscapedStringAsWritten("!a")) == Some([0x21a as char])
    ensures DecodeWord(EscapedStringAsWritten("!a")) != Some("!a")
  {
    CurlCommandEndsWithBody(request, "!a", EscapedStringAsWritten);
    EscapedStringAsWrittenCorrupts();
  }

  /** `convertRequestToCurlCommand`: the command as built with `escapedString` as
      written. The body is `decodeBody(request)`, passed in. */
  method ConvertRequestToCurlCommand(request: Request, body: string) returns (command: string)
    ensures command == CurlCommand(request, body, EscapedStringAsWritten)
  {
    command := BuildCurlCommand(request, body, EscapedStringAsWritten);
  }

  /** The loop of `convertRequestToCurlCommand`: the command accumulated header by
      header, each argument quoted by `quote`. */
  method BuildCurlCommand(request: Request, body: string, quote: string -> string) returns (command: string)
    ensures command == CurlCommand(request, body, quote)
  {
    command := "curl -v -X " + request.methodName;
    command := command + " " + quote(request.url);
    var i := 0;
    while i < |request.headers|
      invariant 0 <= i <= |request.headers|
      invariant command == CurlPrefix(request, i, quote)
    {
      var header := request.headers[i];
      var headerStr := header.key + ": " + header.value;
      command := command + " -H " + quote(headerStr);
      i := i + 1;
    }
    if body != "" {
      command := command + " -d " + quote(body);
    }
  }
}
