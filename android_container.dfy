/** Running commands as an Android app (src/utils/androidContainerUtilityInternal.js):
    allow-list validators for the app name, file paths and file contents, the command
    strings for pushing and pulling a file, the `adb shell` line that pipes a command into
    `run-as`, and the classification of that line's output.

    To say what the device's shell does with those lines, `Words` models how a POSIX shell
    splits text into words, for the features the lines use: spaces between words, single
    quotes (everything up to the next quote is literal) and a backslash escaping the next
    character outside quotes. Other shell syntax is read as ordinary characters. */
module AndroidContainer {
  import opened Wrappers
  import Strings

  // ---------------------------------------------------------------- validators

  /** A character of `/^[a-zA-Z0-9._\-]+$/`. */
  predicate AllowedAppChar(ch: char) {
    ('a' <= ch <= 'z') || ('A' <= ch <= 'Z') || ('0' <= ch <= '9') || ch == '.' || ch == '_' || ch == '-'
  }

  /** `validateAppName`: a non-empty name of allowed characters, unchanged. */
  function ValidateAppName(app: string): (r: Result<string, string>)
    ensures r.Ok? <==> |app| > 0 && forall i :: 0 <= i < |app| ==> AllowedAppChar(app[i])
    ensures r.Ok? ==> r.value == app
    ensures r.Err? ==> r.error == "Disallowed run-as user: " + app
  {
    if |app| > 0 && forall i :: 0 <= i < |app| ==> AllowedAppChar(app[i]) then Ok(app)
    else Err("Disallowed run-as user: " + app)
  }

  /** `validateFilePath`: any path without a single quote, unchanged. */
  function ValidateFilePath(filePath: string): (r: Result<string, string>)
    ensures r.Ok? <==> '\'' !in filePath
    ensures r.Ok? ==> r.value == filePath
    ensures r.Err? ==> r.error == "Disallowed escaping filepath: " + filePath
  {
    if '\'' !in filePath then Ok(filePath) else Err("Disallowed escaping filepath: " + filePath)
  }

  /** `validateFileContent`: any content without a double quote, unchanged. */
  function ValidateFileContent(content: string): (r: Result<string, string>)
    ensures r.Ok? <==> '"' !in content
    ensures r.Ok? ==> r.value == content
    ensures r.Err? ==> r.error == "Disallowed escaping file content: " + content
  {
    if '"' !in content then Ok(content) else Err("Disallowed escaping file content: " + content)
  }

  // ---------------------------------------------------------------- commands

  /** The command `_push` runs: write the contents, then restrict the file's mode.
      Validated contents cannot close the double quotes of `echo "…"`: the first double
      quote after the opening one is the closing one. */
  function PushCommand(filename: string, contents: string): (r: string)
    ensures ValidateFileContent(contents).Ok? ==>
      Strings.StartsWith(r, "echo \"") && Strings.IndexOf(r[6..], "\"") == |contents|
      && Strings.EndsWith(r, "chmod 600 '" + filename + "'")
  {
    var r := "echo \"" + contents + "\" > '" + filename + "' && chmod 600 '" + filename + "'";
    if ValidateFileContent(contents).Ok? then PushContentsStayQuoted(filename, contents, r); r else r
  }

  /** The command `_pull` runs. A validated path is one argument of `cat`, exactly as given. */
  function PullCommand(path: string): (r: string)
    ensures ValidateFilePath(path).Ok? ==> SplitWords(r) == Some(["cat", path])
  {
    var r := "cat '" + path + "'";
    if ValidateFilePath(path).Ok? then PullCommandWords(path); r else r
  }

  /** The push command keeps validated contents between its double quotes. */
  lemma PushContentsStayQuoted(filename: string, contents: string, c: string)
    requires ValidateFileContent(contents).Ok?
    requires c == "echo \"" + contents + "\" > '" + filename + "' && chmod 600 '" + filename + "'"
    ensures Strings.StartsWith(c, "echo \"")
    ensures Strings.IndexOf(c[6..], "\"") == |contents|
    ensures Strings.EndsWith(c, "chmod 600 '" + filename + "'")
  {
    var tail := "chmod 600 '" + filename + "'";
    var head := "echo \"" + contents + "\" > '" + filename + "' && ";
    assert c == head + tail;
    Strings.EndsWithConcat(head, tail);
    var quoted := c[6..];
    assert c == "echo \"" + quoted;
    Strings.StartsWithConcat("echo \"", quoted);
    assert quoted[..|contents|] == contents;
    assert quoted[|contents|] == '"';
    assert quoted[..|contents| + 1] == contents + "\"";
    QuoteAfterContents(contents, quoted);
  }

  /** In `contents` followed by a double quote, with no double quote in `contents`, the
      first double quote is right after it. */
  lemma QuoteAfterContents(contents: string, rest: string)
    requires '"' !in contents && |rest| > |contents| && rest[..|contents| + 1] == contents + "\""
    ensures Strings.IndexOf(rest, "\"") == |contents|
  {
    assert rest[|contents|..|contents| + 1] == "\"";
    forall i | 0 <= i < |contents| ensures !Strings.OccursAt(rest, "\"", i) {
      assert rest[i] == contents[i];
      assert rest[i..i + 1] == [rest[i]];
    }
    Strings.IndexOfFirst(rest, "\"", |contents|);
  }

  // ---------------------------------------------------------------- shell words

  /** The words a POSIX shell makes of `s`, given the word begun so far (`cur`) and
      whether a single quote is open; `None` for an unterminated quote or a trailing
      backslash. */
  function Words(s: string, cur: Option<string>, quoted: bool): Option<seq<string>>
    decreases |s|
  {
    if |s| == 0 then (if quoted then None else Some(if cur.Some? then [cur.value] else []))
    else if quoted then
      if s[0] == '\'' then Words(s[1..], cur, false)
      else Words(s[1..], Some(cur.UnwrapOr("") + [s[0]]), true)
    else if s[0] == ' ' then EndWord(cur, Words(s[1..], None, false))
    else if s[0] == '\'' then Words(s[1..], Some(cur.UnwrapOr("")), true)
    else if s[0] == '\\' then
      if |s| == 1 then None else Words(s[2..], Some(cur.UnwrapOr("") + [s[1]]), false)
    else Words(s[1..], Some(cur.UnwrapOr("") + [s[0]]), false)
  }

  function EndWord(cur: Option<string>, rest: Option<seq<string>>): Option<seq<string>> {
    if rest.None? then None else Some((if cur.Some? then [cur.value] else []) + rest.value)
  }

  /** The words of a whole line. */
  function SplitWords(s: string): Option<seq<string>> {
    Words(s, None, false)
  }

  /** Inside single quotes, text without a quote is taken literally up to the closing
      quote. */
  lemma {:induction false} QuotedRun(c: string, w: string, rest: string)
    requires '\'' !in c
    ensures Words(c + "'" + rest, Some(w), true) == Words(rest, Some(w + c), false)
    decreases |c|
  {
    if |c| == 0 {
      assert c + "'" + rest == "'" + rest;
      assert ("'" + rest)[1..] == rest;
      assert w + c == w;
    } else {
      assert (c + "'" + rest)[1..] == c[1..] + "'" + rest;
      assert (c + "'" + rest)[0] == c[0];
      QuotedRun(c[1..], w + [c[0]], rest);
      assert w + [c[0]] + c[1..] == w + c;
    }
  }

  /** Outside quotes, a run of ordinary characters extends the current word. */
  lemma {:induction false} PlainRun(c: string, cur: Option<string>, rest: string)
    requires |c| > 0
    requires forall i :: 0 <= i < |c| ==> c[i] != ' ' && c[i] != '\'' && c[i] != '\\'
    ensures Words(c + rest, cur, false) == Words(rest, Some(cur.UnwrapOr("") + c), false)
    decreases |c|
  {
    var s := c + rest;
    assert s[0] == c[0] && s[1..] == c[1..] + rest;
    var next := Some(cur.UnwrapOr("") + [c[0]]);
    assert Words(s, cur, false) == Words(c[1..] + rest, next, false);
    if |c| == 1 {
      assert c[1..] + rest == rest;
      assert cur.UnwrapOr("") + [c[0]] == cur.UnwrapOr("") + c;
    } else {
      PlainRun(c[1..], next, rest);
      assert next.UnwrapOr("") + c[1..] == cur.UnwrapOr("") + c;
    }
  }

  /** A validated path is one argument of the pull command, exactly as given. */
  lemma PullCommandWords(path: string)
    requires ValidateFilePath(path).Ok?
    ensures SplitWords("cat '" + path + "'") == Some(["cat", path])
  {
    var s := "cat '" + path + "'";
    var rest := " " + ("'" + path + "'" + "");
    assert s == "cat" + rest;
    PlainRun("cat", None, rest);
    assert "" + "cat" == "cat";
    assert Words(s, None, false) == Words(rest, Some("cat"), false);
    assert Words(rest, Some("cat"), false) == EndWord(Some("cat"), Words(rest[1..], None, false));
    assert rest[1..] == "'" + (path + "'" + "");
    assert rest[1..][1..] == path + "'" + "";
    assert Words(rest[1..], None, false) == Words(path + "'" + "", Some(""), true);
    QuotedRun(path, "", "");
    assert "" + path == path;
    assert Words("", Some(path), false) == Some([path]);
    assert ["cat"] + [path] == ["cat", path];
  }

  /** A validated app name is one argument of `run-as`, exactly as given. */
  lemma AppNameQuotedWord(app: string)
    requires ValidateAppName(app).Ok?
    ensures SplitWords("'" + app + "'") == Some([app])
  {
    assert '\'' !in app by {
      forall i | 0 <= i < |app| ensures app[i] != '\'' {
        assert AllowedAppChar(app[i]);
      }
    }
    assert ("'" + app + "'")[1..] == app + "'" + "";
    QuotedRun(app, "", "");
    assert "" + app == app;
  }

  // ---------------------------------------------------------------- the adb shell line

  /** The line `executeCommandAsApp` sends to `adb shell`, as written: the command put
      between single quotes as it is. */
  function ShellLineAsWritten(command: string, app: string): (r: string)
    ensures Strings.StartsWith(r, "echo " + ("'" + command + "'"))
    ensures '\'' !in command ==> Echoed("'" + command + "'") == Some(command)
    ensures '\'' in command ==> Echoed("'" + command + "'") != Some(command)
    ensures Strings.EndsWith(r, " | run-as '" + app + "'")
  {
    var head := "echo " + ("'" + command + "'");
    var tail := " | run-as '" + app + "'";
    var r := head + tail;
    assert r[..|head|] == head;
    assert r[|r| - |tail|..] == tail;
    if '\'' !in command then QuotedCommandEchoed(command); r
    else QuotedCommandShortened(command); r
  }

  /** A command without a single quote is one word between the quotes, echoed as is. */
  lemma QuotedCommandEchoed(command: string)
    requires '\'' !in command
    ensures Echoed("'" + command + "'") == Some(command)
  {
    assert ("'" + command + "'")[1..] == command + "'" + "";
    QuotedRun(command, "", "");
    assert "" + command == command;
  }

  /** A command with a single quote is not echoed as is: each quote the shell consumes
      makes the printed text shorter than the command. */
  lemma QuotedCommandShortened(command: string)
    requires '\'' in command
    ensures Echoed("'" + command + "'") != Some(command)
  {
    var arg := "'" + command + "'";
    if SplitWords(arg).Some? {
      WordsShorten(arg, None, false);
      assert multiset(arg)['\''] == multiset(command)['\''] + 2;
    }
  }

  /** The words, joined by single spaces, are no longer than the text and the word
      begun so far, less the single quotes the text holds. */
  lemma {:induction false} WordsShorten(s: string, cur: Option<string>, quoted: bool)
    requires Words(s, cur, quoted).Some?
    ensures |Strings.Join(Words(s, cur, quoted).value, ' ')| + multiset(s)['\''] <= |s| + |cur.UnwrapOr("")|
    decreases |s|
  {
    if |s| > 0 {
      assert s == [s[0]] + s[1..];
      if quoted {
        WordsShorten(s[1..], if s[0] == '\'' then cur else Some(cur.UnwrapOr("") + [s[0]]), s[0] != '\'');
      } else if s[0] == ' ' {
        var rest := Words(s[1..], None, false);
        WordsShorten(s[1..], None, false);
        assert multiset(s)['\''] == multiset(s[1..])['\''];
        if cur.Some? {
          assert Words(s, cur, quoted).value == [cur.value] + rest.value;
          JoinConsLength(cur.value, rest.value);
        } else {
          assert Words(s, cur, quoted).value == rest.value;
        }
      } else if s[0] == '\'' {
        WordsShorten(s[1..], Some(cur.UnwrapOr("")), true);
      } else if s[0] == '\\' {
        assert s[1..] == [s[1]] + s[2..];
        WordsShorten(s[2..], Some(cur.UnwrapOr("") + [s[1]]), false);
      } else {
        WordsShorten(s[1..], Some(cur.UnwrapOr("") + [s[0]]), false);
      }
    }
  }

  /** One more word adds at most its length and a space to the joined text. */
  lemma JoinConsLength(w: string, ws: seq<string>)
    ensures |Strings.Join([w] + ws, ' ')| <= |w| + 1 + |Strings.Join(ws, ' ')|
  {
    if |ws| > 0 {
      assert ([w] + ws)[1..] == ws;
    }
  }

  /** What `echo` prints for the argument text `arg` it is given (its words joined by
      single spaces), which `run-as` then runs. */
  function Echoed(arg: string): Option<string> {
    var words := SplitWords(arg);
    if words.Some? then Some(Strings.Join(words.value, ' ')) else None
  }

  /** As written, the quotes around the path close the outer quotes: a validated path with
      a space reaches `run-as` unquoted, so `cat` is given two files. */
  lemma ShellLineAsWrittenSplitsPath()
    ensures ValidateFilePath("a b").Ok?
    ensures SplitWords("'" + PullCommand("a b") + "'") == Some(["cat a", "b"])
    ensures Echoed("'" + PullCommand("a b") + "'") == Some("cat a b")
    ensures Echoed("'" + PullCommand("a b") + "'") != Some(PullCommand("a b"))
  {
    var s := "'" + PullCommand("a b") + "'";
    WordsOfQuotedPull(s);
    assert Strings.Join(["cat a", "b"], ' ') == "cat a" + " " + "b" by {
      assert ["cat a", "b"][1..] == ["b"];
    }
    assert "cat a" + " " + "b" == "cat a b";
    assert PullCommand("a b") == "cat 'a b'";
    assert |"cat a b"| != |"cat 'a b'"|;
  }

  /** The words of the pull command for `a b` inside the outer quotes. */
  lemma WordsOfQuotedPull(s: string)
    requires s == "'" + PullCommand("a b") + "'"
    ensures SplitWords(s) == Some(["cat a", "b"])
  {
    assert s == "'" + ("cat " + "'" + "a b''");
    assert s[1..] == "cat " + "'" + "a b''";
    QuotedRun("cat ", "", "a b''");
    assert "" + "cat " == "cat ";
    assert Words(s, None, false) == Words("a b''", Some("cat "), false);
    WordsOfPathTail();
  }

  lemma WordsOfPathTail()
    ensures Words("a b''", Some("cat "), false) == Some(["cat a", "b"])
  {
    assert "a b''" == "a" + " b''";
    PlainRun("a", Some("cat "), " b''");
    assert "cat " + "a" == "cat a";
    assert Words(" b''", Some("cat a"), false) == EndWord(Some("cat a"), Words("b''", None, false));
    assert " b''"[1..] == "b''";
    assert "b''" == "b" + "''";
    PlainRun("b", None, "''");
    assert "" + "b" == "b";
    assert "''"[1..] == "'" && "'"[1..] == "";
    assert Words("''", Some("b"), false) == Words("'", Some("b"), true);
    assert Words("'", Some("b"), true) == Words("", Some("b"), false);
    assert ["cat a"] + ["b"] == ["cat a", "b"];
  }

  /** The escaping the line needs: each single quote of the command closes the quotes,
      is escaped, and reopens them (`'\''`). */
  function QuoteInner(command: string): (r: string)
    ensures '\'' !in command ==> r == command
    decreases |command|
  {
    if |command| == 0 then ""
    else (if command[0] == '\'' then "'\\''" else [command[0]]) + QuoteInner(command[1..])
  }

  /** The argument of `echo` with every quote of the command escaped. */
  function EchoArgument(command: string): string {
    "'" + QuoteInner(command) + "'"
  }

  /** An escaped quote, `'\''`, inside quotes adds a quote to the word and stays quoted. */
  lemma EscapedQuoteStep(w: string, tail: string)
    ensures Words("'\\''" + tail, Some(w), true) == Words(tail, Some(w + "'"), true)
  {
    var s := "'\\''" + tail;
    assert s[0] == '\'' && s[1..] == "\\''" + tail;
    var t := s[1..];
    assert t[0] == '\\' && t[1] == '\'' && t[2..] == "'" + tail;
    var u := t[2..];
    assert u[0] == '\'' && u[1..] == tail;
    assert Words(s, Some(w), true) == Words(t, Some(w), false);
    assert w + [t[1]] == w + "'";
    assert Words(t, Some(w), false) == Words(u, Some(w + "'"), false);
    assert Words(u, Some(w + "'"), false) == Words(tail, Some(w + "'"), true);
  }

  /** An ordinary character inside quotes is added to the word. */
  lemma QuotedCharStep(ch: char, w: string, tail: string)
    requires ch != '\''
    ensures Words([ch] + tail, Some(w), true) == Words(tail, Some(w + [ch]), true)
  {
    assert ([ch] + tail)[1..] == tail;
  }

  lemma {:induction false} QuoteInnerRun(c: string, w: string, rest: string)
    ensures Words(QuoteInner(c) + "'" + rest, Some(w), true) == Words(rest, Some(w + c), false)
    decreases |c|
  {
    if |c| == 0 {
      assert QuoteInner(c) + "'" + rest == "'" + rest;
      assert ("'" + rest)[1..] == rest;
      assert w + c == w;
    } else {
      var tail := QuoteInner(c[1..]) + "'" + rest;
      QuoteInnerRun(c[1..], w + [c[0]], rest);
      assert w + [c[0]] + c[1..] == w + c;
      if c[0] == '\'' {
        assert QuoteInner(c) + "'" + rest == "'\\''" + tail;
        EscapedQuoteStep(w, tail);
      } else {
        assert QuoteInner(c) + "'" + rest == [c[0]] + tail;
        QuotedCharStep(c[0], w, tail);
      }
    }
  }

  /** With the escaping, `echo` prints exactly the command, whatever it holds. */
  lemma EchoArgumentRoundTrip(command: string)
    ensures SplitWords(EchoArgument(command)) == Some([command])
    ensures Echoed(EchoArgument(command)) == Some(command)
  {
    var s := EchoArgument(command);
    assert s[1..] == QuoteInner(command) + "'" + "";
    QuoteInnerRun(command, "", "");
    assert "" + command == command;
  }

  /** The line with the command escaped for the outer quotes. */
  function ShellLine(command: string, app: string): (r: string)
    ensures Strings.StartsWith(r, "echo " + EchoArgument(command))
    ensures Echoed(EchoArgument(command)) == Some(command)
    ensures Strings.EndsWith(r, " | run-as '" + app + "'")
  {
    EchoArgumentRoundTrip(command);
    var head := "echo " + EchoArgument(command);
    var tail := " | run-as '" + app + "'";
    var r := head + tail;
    assert r[..|head|] == head;
    assert r[|r| - |tail|..] == tail;
    r
  }

  /** With the escaping, the pulled path reaches `cat` as one argument. */
  lemma ShellLinePullsPath(path: string)
    requires ValidateFilePath(path).Ok?
    ensures Echoed(EchoArgument(PullCommand(path))) == Some(PullCommand(path))
    ensures SplitWords(PullCommand(path)) == Some(["cat", path])
  {
    EchoArgumentRoundTrip(PullCommand(path));
  }

  // ---------------------------------------------------------------- the output

  /** The two errors the output can raise, with what their messages name. */
  datatype CommandError =
    | NotDebuggable(app: string)
    | Unsupported(deviceId: string)

  /** The message of the error for an app that is not debuggable. */
  function NotDebuggableMessage(app: string): (r: string)
    ensures Strings.Contains(r, app)
  {
    var tail := " is not debuggable. To use it with Flipper, add android:debuggable=\"true\" to the application section of AndroidManifest.xml";
    ContainsPiece("Android app ", app, tail);
    "Android app " + app + tail
  }

  /** The message of the error for a device without `run-as`. */
  function UnsupportedMessage(deviceId: string): (r: string)
    ensures Strings.Contains(r, deviceId)
  {
    var tail := ") does not support the adb shell run-as command. We're tracking this at https://github.com/facebook/flipper/issues/92";
    ContainsPiece("Your android device (", deviceId, tail);
    "Your android device (" + deviceId + tail
  }

  /** `/debuggable/` matches the output. */
  predicate SaysNotDebuggable(output: string) {
    Strings.Contains(output, "debuggable")
  }

  /** `/not permitted/` matches the lower-cased output. */
  predicate SaysNotPermitted(output: string) {
    Strings.Contains(Strings.ToLower(output), "not permitted")
  }

  /** How `executeCommandAsApp` treats the output: a mention of "debuggable" is checked
      first, then "not permitted" in the lower-cased output; anything else is returned. */
  function ClassifyOutput(output: string, app: string, deviceId: string): (r: Result<string, CommandError>)
    ensures SaysNotDebuggable(output) <==> r.Err? && r.error.NotDebuggable?
    ensures !SaysNotDebuggable(output) && SaysNotPermitted(output) <==> r.Err? && r.error.Unsupported?
    ensures r.Ok? ==> r.value == output
    ensures r.Err? && r.error.NotDebuggable? ==> r.error.app == app
    ensures r.Err? && r.error.Unsupported? ==> r.error.deviceId == deviceId
  {
    if SaysNotDebuggable(output) then Err(NotDebuggable(app))
    else if SaysNotPermitted(output) then Err(Unsupported(deviceId))
    else Ok(output)
  }

  lemma ContainsPiece(a: string, b: string, c: string)
    ensures Strings.Contains(a + b + c, b)
  {
    Strings.ContainsIff(a + b + c, b);
    assert Strings.OccursAt(a + b + c, b, |a|) by {
      assert (a + b + c)[|a|..|a| + |b|] == b;
    }
  }
}
