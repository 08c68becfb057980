/**
  Command-line and configuration quoting (agentctl/src/ssh/client_config.rs), with the readers that
  have to undo it.
*/
module Quoting {
  import opened Wrappers

  // ----- plain words -----

  predicate IsPlainChar(c: char) {
    || 'a' <= c <= 'z' || 'A' <= c <= 'Z' || '0' <= c <= '9'
    || c == '/' || c == '~' || c == '.' || c == '_' || c == '-' || c == ':' || c == '+' || c == '@'
  }

  /** A word that needs no quoting under any of the readers. */
  predicate IsPlain(text: string) {
    text != "" && forall i :: 0 <= i < |text| ==> IsPlainChar(text[i])
  }

  function Repeat(c: char, n: nat): (s: string)
    ensures |s| == n && forall i :: 0 <= i < n ==> s[i] == c
  {
    seq(n, _ => c)
  }

  // ----- Windows: the printer -----

  /** What `windows_quote` writes after the opening quote, with `slashes` backslashes held back. */
  function WindowsBody(text: string, slashes: nat): string
    decreases |text|
  {
    if text == "" then Repeat('\\', 2 * slashes) + "\""
    else if text[0] == '\\' then WindowsBody(text[1..], slashes + 1)
    else if text[0] == '"' then Repeat('\\', 2 * slashes + 1) + "\"" + WindowsBody(text[1..], 0)
    else Repeat('\\', slashes) + [text[0]] + WindowsBody(text[1..], 0)
  }

  function WindowsWord(text: string): string {
    if IsPlain(text) then text else "\"" + WindowsBody(text, 0)
  }

  method WindowsQuote(text: string) returns (quoted: string)
    ensures quoted == WindowsWord(text)
  {
    if IsPlain(text) { return text; }
    quoted := "\"";
    var backslashes := 0;
    for i := 0 to |text|
      invariant quoted + WindowsBody(text[i..], backslashes) == "\"" + WindowsBody(text, 0)
    {
      assert text[i..][1..] == text[i + 1..];
      match text[i] {
        case '\\' => backslashes := backslashes + 1;
        case '"' =>
          ghost var rest := WindowsBody(text[i + 1..], 0);
          assert quoted + (Repeat('\\', 2 * backslashes + 1) + "\"" + rest)
            == (quoted + Repeat('\\', 2 * backslashes + 1) + "\"") + rest;
          quoted := quoted + Repeat('\\', 2 * backslashes + 1) + "\"";
          backslashes := 0;
        case c =>
          ghost var rest := WindowsBody(text[i + 1..], 0);
          assert quoted + (Repeat('\\', backslashes) + [c] + rest) == (quoted + Repeat('\\', backslashes) + [c]) + rest;
          quoted := quoted + Repeat('\\', backslashes) + [c];
          backslashes := 0;
      }
    }
    quoted := quoted + Repeat('\\', 2 * backslashes) + "\"";
  }

  // ----- Windows: the reader -----

  /**
    How `CreateProcess` splits a command line. Backslashes are literal unless a `"` follows: then
    each pair is one backslash, and an odd one makes the quote literal. Any other `"` opens or
    closes quoting, and a space outside quoting ends a word.

    `word` is the word read so far, if one has begun, and `slashes` the backslashes just read.
  */
  function WindowsSplit(line: string, quoting: bool, word: Option<string>, slashes: nat): seq<string>
    decreases |line|
  {
    var begun := if word.Some? then word.value else "";
    if line == "" then
      if word.Some? || slashes > 0 then [begun + Repeat('\\', slashes)] else []
    else if line[0] == '\\' then WindowsSplit(line[1..], quoting, Some(begun), slashes + 1)
    else if line[0] == '"' then
      if slashes % 2 == 0 then WindowsSplit(line[1..], !quoting, Some(begun + Repeat('\\', slashes / 2)), 0)
      else WindowsSplit(line[1..], quoting, Some(begun + Repeat('\\', slashes / 2) + "\""), 0)
    else if line[0] == ' ' && !quoting then
      if word.Some? then [begun + Repeat('\\', slashes)] + WindowsSplit(line[1..], false, None, 0)
      else WindowsSplit(line[1..], false, None, 0)
    else WindowsSplit(line[1..], quoting, Some(begun + Repeat('\\', slashes) + [line[0]]), 0)
  }

  /** The reader takes a run of backslashes one at a time. */
  lemma {:induction false} ReadSlashes(n: nat, rest: string, quoting: bool, word: string, slashes: nat)
    ensures WindowsSplit(Repeat('\\', n) + rest, quoting, Some(word), slashes)
      == WindowsSplit(rest, quoting, Some(word), slashes + n)
    decreases n
  {
    if n == 0 {
      assert Repeat('\\', 0) + rest == rest;
    } else {
      assert (Repeat('\\', n) + rest)[1..] == Repeat('\\', n - 1) + rest;
      ReadSlashes(n - 1, rest, quoting, word, slashes + 1);
    }
  }

  lemma ReadClosing(held: nat, rest: string, word: string)
    ensures WindowsSplit(Repeat('\\', 2 * held) + "\"" + rest, true, Some(word), 0)
         == WindowsSplit(rest, false, Some(word + Repeat('\\', held)), 0)
  {
    var tail := "\"" + rest;
    assert Repeat('\\', 2 * held) + "\"" + rest == Repeat('\\', 2 * held) + tail;
    ReadSlashes(2 * held, tail, true, word, 0);
    assert tail[1..] == rest;
  }

  lemma ReadEscaped(held: nat, rest: string, word: string)
    ensures WindowsSplit(Repeat('\\', 2 * held + 1) + "\"" + rest, true, Some(word), 0)
         == WindowsSplit(rest, true, Some(word + Repeat('\\', held) + "\""), 0)
  {
    var tail := "\"" + rest;
    assert Repeat('\\', 2 * held + 1) + "\"" + rest == Repeat('\\', 2 * held + 1) + tail;
    ReadSlashes(2 * held + 1, tail, true, word, 0);
    assert tail[1..] == rest;
    assert (2 * held + 1) / 2 == held;
  }

  lemma ReadLiteral(held: nat, c: char, rest: string, word: string)
    requires c != '\\' && c != '"'
    ensures WindowsSplit(Repeat('\\', held) + [c] + rest, true, Some(word), 0)
         == WindowsSplit(rest, true, Some(word + Repeat('\\', held) + [c]), 0)
  {
    var tail := [c] + rest;
    assert Repeat('\\', held) + [c] + rest == Repeat('\\', held) + tail;
    ReadSlashes(held, tail, true, word, 0);
    assert tail[1..] == rest;
  }

  /** Inside quotes the reader undoes the body and leaves quoting with the text appended. */
  lemma {:induction false} ReadWindowsBody(text: string, held: nat, rest: string, word: string)
    ensures WindowsSplit(WindowsBody(text, held) + rest, true, Some(word), 0)
         == WindowsSplit(rest, false, Some(word + Repeat('\\', held) + text), 0)
    decreases |text|
  {
    if text == "" {
      ReadClosing(held, rest, word);
      assert word + Repeat('\\', held) + text == word + Repeat('\\', held);
    } else if text[0] == '\\' {
      ReadWindowsBody(text[1..], held + 1, rest, word);
      assert word + Repeat('\\', held + 1) + text[1..] == word + Repeat('\\', held) + text;
    } else {
      var c, after := text[0], WindowsBody(text[1..], 0) + rest;
      var next := word + Repeat('\\', held) + [c];
      if c == '"' {
        assert WindowsBody(text, held) + rest == Repeat('\\', 2 * held + 1) + "\"" + after;
        ReadEscaped(held, after, word);
      } else {
        assert WindowsBody(text, held) + rest == Repeat('\\', held) + [c] + after;
        ReadLiteral(held, c, after, word);
      }
      ReadWindowsBody(text[1..], 0, rest, next);
      assert next + Repeat('\\', 0) + text[1..] == word + Repeat('\\', held) + text;
    }
  }

  lemma {:induction false} ReadWindowsPlain(text: string, rest: string, word: Option<string>)
    requires forall i :: 0 <= i < |text| ==> IsPlainChar(text[i])
    requires text != "" || word.Some?
    ensures WindowsSplit(text + rest, false, word, 0)
         == WindowsSplit(rest, false, Some((if word.Some? then word.value else "") + text), 0)
    decreases |text|
  {
    var begun := if word.Some? then word.value else "";
    if text == "" {
      assert text + rest == rest && begun + text == begun;
    } else {
      assert (text + rest)[1..] == text[1..] + rest;
      assert begun + Repeat('\\', 0) + [text[0]] == begun + [text[0]];
      ReadWindowsPlain(text[1..], rest, Some(begun + [text[0]]));
      TakenFirst(begun, text);
    }
  }

  lemma ReadOpening(body: string)
    ensures WindowsSplit("\"" + body, false, None, 0) == WindowsSplit(body, true, Some(""), 0)
  {
    assert ("\"" + body)[1..] == body;
    assert "" + Repeat('\\', 0) == "";
  }

  /** A quoted word, at the start of a word, is read as exactly its text. */
  lemma ReadWindowsWord(text: string, rest: string)
    ensures WindowsSplit(WindowsWord(text) + rest, false, None, 0) == WindowsSplit(rest, false, Some(text), 0)
  {
    assert "" + text == text;
    if IsPlain(text) {
      ReadWindowsPlain(text, rest, None);
    } else {
      Regrouped("\"", WindowsBody(text, 0), rest);
      ReadOpening(WindowsBody(text, 0) + rest);
      ReadWindowsBody(text, 0, rest, "");
      assert "" + Repeat('\\', 0) + text == text;
    }
  }

  function Joined(words: seq<string>): string
    decreases |words|
  {
    if words == [] then "" else if |words| == 1 then words[0] else words[0] + " " + Joined(words[1..])
  }

  function WindowsLine(words: seq<string>): string {
    Joined(seq(|words|, i requires 0 <= i < |words| => WindowsWord(words[i])))
  }

  /** Any list of words, each quoted and joined by spaces, is split back into exactly that list. */
  lemma {:induction false} WindowsRoundTrip(words: seq<string>)
    ensures WindowsSplit(WindowsLine(words), false, None, 0) == words
    decreases |words|
  {
    if words == [] {
    } else if |words| == 1 {
      ReadWindowsWord(words[0], "");
      assert WindowsLine(words) == WindowsWord(words[0]) + "";
      ReadEnd(words[0], "");
      assert words == [words[0]];
    } else {
      var rest := WindowsLine(words[1..]);
      WindowsLineStep(words);
      ReadWindowsWord(words[0], " " + rest);
      ReadEnd(words[0], " " + rest);
      WindowsRoundTrip(words[1..]);
      assert words == [words[0]] + words[1..];
    }
  }

  lemma WindowsLineStep(words: seq<string>)
    requires |words| > 1
    ensures WindowsLine(words) == WindowsWord(words[0]) + (" " + WindowsLine(words[1..]))
  {
    var quoted := seq(|words|, i requires 0 <= i < |words| => WindowsWord(words[i]));
    assert quoted[1..] == seq(|words[1..]|, i requires 0 <= i < |words[1..]| => WindowsWord(words[1..][i]));
  }

  /** A word ends at the end of the line, or at a space. */
  lemma ReadEnd(word: string, rest: string)
    requires rest == "" || rest[0] == ' '
    ensures WindowsSplit(rest, false, Some(word), 0) ==
      [word] + if rest == "" then [] else WindowsSplit(rest[1..], false, None, 0)
  {
    assert word + Repeat('\\', 0) == word;
  }

  // ----- POSIX: the printer -----

  /** What `posix_quote` writes inside the quotes for one character, leaving them for `'` and `\`. */
  function PosixPart(c: char): string {
    if c == '\'' || c == '\\' then ['\'', '\\', c, '\''] else [c]
  }

  /** What it writes after the opening quote. */
  function PosixBody(text: string): string
    decreases |text|
  {
    if text == "" then "'" else PosixPart(text[0]) + PosixBody(text[1..])
  }

  function PosixWord(text: string): string {
    if IsPlain(text) then text else "'" + PosixBody(text)
  }

  method PosixQuote(text: string) returns (quoted: string)
    ensures quoted == PosixWord(text)
  {
    if IsPlain(text) { return text; }
    quoted := "'";
    for i := 0 to |text|
      invariant quoted + PosixBody(text[i..]) == "'" + PosixBody(text)
    {
      assert text[i..][1..] == text[i + 1..];
      ghost var rest := PosixBody(text[i + 1..]);
      match text[i] {
        case '\'' =>
          assert quoted + ("'\\''" + rest) == quoted + "'\\''" + rest;
          quoted := quoted + "'\\''";
        case '\\' =>
          assert quoted + ("'\\\\'" + rest) == quoted + "'\\\\'" + rest;
          quoted := quoted + "'\\\\'";
        case c =>
          assert quoted + ([c] + rest) == quoted + [c] + rest;
          quoted := quoted + [c];
      }
    }
    quoted := quoted + "'";
  }

  // ----- POSIX: the shell, and OpenSSH -----

  function Begun(word: Option<string>): string {
    if word.Some? then word.value else ""
  }

  function Ended(word: Option<string>, rest: Option<seq<string>>): Option<seq<string>> {
    match (word, rest)
    case (_, None) => None
    case (None, Some(words)) => Some(words)
    case (Some(text), Some(words)) => Some([text] + words)
  }

  /** Characters the shell does not take literally when they are unquoted. */
  predicate Special(c: char) {
    || c == '|' || c == '&' || c == ';' || c == '<' || c == '>' || c == '(' || c == ')' || c == '$' || c == '`'
    || c == '"' || c == '*' || c == '?' || c == '[' || c == '#' || c == '=' || c == '%' || c == '{' || c == '}'
    || c == '!' || c == '\n'
  }

  /**
    The shell's words (IEEE Std 1003.1-2017, Shell Command Language, sections 2.2.1, 2.2.2 and
    2.6.1), when the line is nothing but words it reads literally: no unquoted special character,
    no tilde that starts a word, and every quote closed. Inside single quotes every character is
    literal; outside, a backslash makes the next one so.
  */
  function ShellSplit(line: string, quoting: bool, word: Option<string>): Option<seq<string>>
    decreases |line|
  {
    if line == "" then
      if quoting then None else Ended(word, Some([]))
    else if quoting then
      if line[0] == '\'' then ShellSplit(line[1..], false, word)
      else ShellSplit(line[1..], true, Some(Begun(word) + [line[0]]))
    else if line[0] == '\'' then ShellSplit(line[1..], true, Some(Begun(word)))
    else if line[0] == '\\' then
      if |line| == 1 || line[1] == '\n' then None else ShellSplit(line[2..], false, Some(Begun(word) + [line[1]]))
    else if line[0] == ' ' || line[0] == '\t' then Ended(word, ShellSplit(line[1..], false, None))
    else if Special(line[0]) || (line[0] == '~' && word.None?) then None
    else ShellSplit(line[1..], false, Some(Begun(word) + [line[0]]))
  }

  /**
    OpenSSH's words of a configuration line. Both kinds of quote group; a backslash is an escape,
    inside quotes too, before either quote or a backslash (outside, before a space as well) and is
    literal before anything else; `#` at the start of a word begins a comment.
  */
  function SshSplit(line: string, quote: Option<char>, word: Option<string>): Option<seq<string>>
    decreases |line|
  {
    if line == "" then
      if quote.Some? then None else Ended(word, Some([]))
    else if line[0] == '\\' && |line| > 1 &&
      (line[1] == '\'' || line[1] == '"' || line[1] == '\\' || (quote.None? && line[1] == ' ')) then
      SshSplit(line[2..], quote, Some(Begun(word) + [line[1]]))
    else if quote.None? && (line[0] == ' ' || line[0] == '\t') then Ended(word, SshSplit(line[1..], None, None))
    else if quote.None? && word.None? && line[0] == '#' then Some([])
    else if quote.None? && (line[0] == '\'' || line[0] == '"') then
      SshSplit(line[1..], Some(line[0]), Some(Begun(word)))
    else if quote == Some(line[0]) then SshSplit(line[1..], None, word)
    else SshSplit(line[1..], quote, Some(Begun(word) + [line[0]]))
  }

  /** Leaving the quotes for one escaped character, as the printer does for `'` and `\`. */
  lemma ShellReadsEscape(c: char, rest: string, word: string)
    requires c == '\'' || c == '\\'
    ensures ShellSplit(['\'', '\\', c, '\''] + rest, true, Some(word)) == ShellSplit(rest, true, Some(word + [c]))
  {
    var line := ['\'', '\\', c, '\''] + rest;
    var escaped, reopened := ['\\', c, '\''] + rest, ['\''] + rest;
    assert line[1..] == escaped && escaped[2..] == reopened && reopened[1..] == rest;
    assert ShellSplit(reopened, false, Some(word + [c])) == ShellSplit(rest, true, Some(word + [c]));
    assert ShellSplit(escaped, false, Some(word)) == ShellSplit(reopened, false, Some(word + [c]));
  }

  lemma SshReadsEscape(c: char, rest: string, word: string)
    requires c == '\'' || c == '\\'
    ensures SshSplit(['\'', '\\', c, '\''] + rest, Some('\''), Some(word))
      == SshSplit(rest, Some('\''), Some(word + [c]))
  {
    var line := ['\'', '\\', c, '\''] + rest;
    var escaped, reopened := ['\\', c, '\''] + rest, ['\''] + rest;
    assert line[1..] == escaped && escaped[2..] == reopened && reopened[1..] == rest;
    assert SshSplit(reopened, None, Some(word + [c])) == SshSplit(rest, Some('\''), Some(word + [c]));
    assert SshSplit(escaped, None, Some(word)) == SshSplit(reopened, None, Some(word + [c]));
  }

  lemma ShellReadsPart(c: char, rest: string, word: string)
    ensures ShellSplit(PosixPart(c) + rest, true, Some(word)) == ShellSplit(rest, true, Some(word + [c]))
  {
    if c == '\'' || c == '\\' {
      ShellReadsEscape(c, rest, word);
    } else {
      assert ([c] + rest)[1..] == rest;
    }
  }

  lemma SshReadsPart(c: char, rest: string, word: string)
    ensures SshSplit(PosixPart(c) + rest, Some('\''), Some(word)) == SshSplit(rest, Some('\''), Some(word + [c]))
  {
    if c == '\'' || c == '\\' {
      SshReadsEscape(c, rest, word);
    } else {
      assert ([c] + rest)[1..] == rest;
    }
  }

  lemma Regrouped(a: string, b: string, c: string)
    ensures a + b + c == a + (b + c)
  {
  }

  lemma TakenFirst(word: string, text: string)
    requires text != ""
    ensures word + [text[0]] + text[1..] == word + text
  {
  }

  lemma {:induction false} ShellReadsBody(text: string, rest: string, word: string)
    ensures ShellSplit(PosixBody(text) + rest, true, Some(word)) == ShellSplit(rest, false, Some(word + text))
    decreases |text|
  {
    if text == "" {
      assert ("'" + rest)[1..] == rest && word + text == word;
    } else {
      Regrouped(PosixPart(text[0]), PosixBody(text[1..]), rest);
      TakenFirst(word, text);
      ShellReadsPart(text[0], PosixBody(text[1..]) + rest, word);
      ShellReadsBody(text[1..], rest, word + [text[0]]);
    }
  }

  lemma {:induction false} SshReadsBody(text: string, rest: string, word: string)
    ensures SshSplit(PosixBody(text) + rest, Some('\''), Some(word)) == SshSplit(rest, None, Some(word + text))
    decreases |text|
  {
    if text == "" {
      assert ("'" + rest)[1..] == rest && word + text == word;
    } else {
      Regrouped(PosixPart(text[0]), PosixBody(text[1..]), rest);
      TakenFirst(word, text);
      SshReadsPart(text[0], PosixBody(text[1..]) + rest, word);
      SshReadsBody(text[1..], rest, word + [text[0]]);
    }
  }

  lemma {:induction false} ShellReadsPlain(text: string, rest: string, word: Option<string>)
    requires forall i :: 0 <= i < |text| ==> IsPlainChar(text[i])
    requires word.Some? || (text != "" && text[0] != '~')
    ensures ShellSplit(text + rest, false, word) == ShellSplit(rest, false, Some(Begun(word) + text))
    decreases |text|
  {
    if text == "" {
      assert text + rest == rest && Begun(word) + text == Begun(word);
    } else {
      assert (text + rest)[1..] == text[1..] + rest;
      assert IsPlainChar(text[0]);
      ShellReadsPlain(text[1..], rest, Some(Begun(word) + [text[0]]));
      TakenFirst(Begun(word), text);
    }
  }

  lemma {:induction false} SshReadsPlain(text: string, rest: string, word: Option<string>)
    requires forall i :: 0 <= i < |text| ==> IsPlainChar(text[i])
    requires word.Some? || text != ""
    ensures SshSplit(text + rest, None, word) == SshSplit(rest, None, Some(Begun(word) + text))
    decreases |text|
  {
    if text == "" {
      assert text + rest == rest && Begun(word) + text == Begun(word);
    } else {
      assert (text + rest)[1..] == text[1..] + rest;
      assert IsPlainChar(text[0]);
      SshReadsPlain(text[1..], rest, Some(Begun(word) + [text[0]]));
      TakenFirst(Begun(word), text);
    }
  }

  /** A plain word that begins with a tilde is the one the shell would expand. */
  predicate Expandable(text: string) {
    IsPlain(text) && text[0] == '~'
  }

  lemma ShellOpens(body: string)
    ensures ShellSplit("'" + body, false, None) == ShellSplit(body, true, Some(""))
  {
    assert ("'" + body)[1..] == body;
  }

  lemma SshOpens(body: string)
    ensures SshSplit("'" + body, None, None) == SshSplit(body, Some('\''), Some(""))
  {
    assert ("'" + body)[1..] == body;
  }

  lemma ShellReadsWord(text: string, rest: string)
    requires !Expandable(text)
    ensures ShellSplit(PosixWord(text) + rest, false, None) == ShellSplit(rest, false, Some(text))
  {
    assert "" + text == text;
    if IsPlain(text) {
      ShellReadsPlain(text, rest, None);
    } else {
      Regrouped("'", PosixBody(text), rest);
      ShellOpens(PosixBody(text) + rest);
      ShellReadsBody(text, rest, "");
    }
  }

  lemma SshReadsWord(text: string, rest: string)
    ensures SshSplit(PosixWord(text) + rest, None, None) == SshSplit(rest, None, Some(text))
  {
    assert "" + text == text;
    if IsPlain(text) {
      SshReadsPlain(text, rest, None);
    } else {
      Regrouped("'", PosixBody(text), rest);
      SshOpens(PosixBody(text) + rest);
      SshReadsBody(text, rest, "");
    }
  }

  function PosixLine(words: seq<string>): string {
    Joined(seq(|words|, i requires 0 <= i < |words| => PosixWord(words[i])))
  }

  lemma {:induction false} ShellRoundTrip(words: seq<string>)
    requires forall i :: 0 <= i < |words| ==> !Expandable(words[i])
    ensures ShellSplit(PosixLine(words), false, None) == Some(words)
    decreases |words|
  {
    if words == [] {
    } else if |words| == 1 {
      ShellReadsWord(words[0], "");
      assert PosixLine(words) == PosixWord(words[0]) + "";
      assert words == [words[0]] && [words[0]] + [] == [words[0]];
    } else {
      var rest := PosixLine(words[1..]);
      PosixLineStep(words);
      ShellReadsWord(words[0], " " + rest);
      ShellRoundTrip(words[1..]);
      assert ShellSplit(" " + rest, false, Some(words[0])) == Some([words[0]] + words[1..]);
      assert words == [words[0]] + words[1..];
    }
  }

  lemma {:induction false} SshRoundTrip(words: seq<string>)
    ensures SshSplit(PosixLine(words), None, None) == Some(words)
    decreases |words|
  {
    if words == [] {
    } else if |words| == 1 {
      SshReadsWord(words[0], "");
      assert PosixLine(words) == PosixWord(words[0]) + "";
      assert words == [words[0]] && [words[0]] + [] == [words[0]];
    } else {
      var rest := PosixLine(words[1..]);
      PosixLineStep(words);
      SshReadsWord(words[0], " " + rest);
      SshRoundTrip(words[1..]);
      assert SshSplit(" " + rest, None, Some(words[0])) == Some([words[0]] + words[1..]);
      assert words == [words[0]] + words[1..];
    }
  }

  /**
    Exactly which lists of words the shell reads back from the quoted line: those with no word that
    is plain and begins with a tilde, which the shell would expand. OpenSSH reads every list back,
    so the two readers agree whenever the shell takes the line literally.
  */
  lemma PosixReadersAgreeExactlyWhen(words: seq<string>)
    ensures ShellSplit(PosixLine(words), false, None) == Some(words) <==>
      forall i :: 0 <= i < |words| ==> !Expandable(words[i])
    ensures SshSplit(PosixLine(words), None, None) == Some(words)
  {
    SshRoundTrip(words);
    if forall i :: 0 <= i < |words| ==> !Expandable(words[i]) {
      ShellRoundTrip(words);
    } else {
      TildeStopsTheShell(words);
    }
  }

  lemma PosixLineStep(words: seq<string>)
    requires |words| > 1
    ensures PosixLine(words) == PosixWord(words[0]) + (" " + PosixLine(words[1..]))
    ensures (" " + PosixLine(words[1..]))[1..] == PosixLine(words[1..])
  {
    var quoted := seq(|words|, i requires 0 <= i < |words| => PosixWord(words[i]));
    assert quoted[1..] == seq(|words[1..]|, i requires 0 <= i < |words[1..]| => PosixWord(words[1..][i]));
  }

  lemma {:induction false} TildeStopsTheShell(words: seq<string>)
    requires exists i :: 0 <= i < |words| && Expandable(words[i])
    ensures ShellSplit(PosixLine(words), false, None).None?
    decreases |words|
  {
    if Expandable(words[0]) {
      if |words| > 1 { PosixLineStep(words); }
      assert PosixLine(words)[0] == '~';
    } else {
      PosixLineStep(words);
      ShellReadsWord(words[0], " " + PosixLine(words[1..]));
      var i :| 0 <= i < |words| && Expandable(words[i]);
      assert words[1..][i - 1] == words[i];
      TildeStopsTheShell(words[1..]);
    }
  }

  // ----- PowerShell -----

  predicate SingleQuote(c: char) {
    c == '\'' || c == '\U{2018}' || c == '\U{2019}' || c == '\U{201A}' || c == '\U{201B}'
  }

  /** What PowerShell expands, or ends a string on, inside double quotes. */
  predicate Expanded(c: char) {
    c == '$' || c == '`' || c == '\U{201C}' || c == '\U{201D}' || c == '\U{201E}'
  }

  function PowerShellBody(text: string): string {
    if text == "" then "'"
    else (if SingleQuote(text[0]) then [text[0], text[0]] else [text[0]]) + PowerShellBody(text[1..])
  }

  function PowerShellWord(text: string): string {
    if exists i :: 0 <= i < |text| && Expanded(text[i]) then "'" + PowerShellBody(text) else WindowsWord(text)
  }

  method PowerShellQuote(text: string) returns (quoted: string)
    ensures quoted == PowerShellWord(text)
  {
    if !exists i :: 0 <= i < |text| && Expanded(text[i]) {
      quoted := WindowsQuote(text);
      return;
    }
    quoted := "'";
    for i := 0 to |text|
      invariant quoted + PowerShellBody(text[i..]) == "'" + PowerShellBody(text)
    {
      ghost var rest := PowerShellBody(text[i + 1..]);
      assert text[i..][1..] == text[i + 1..];
      assert quoted + ([text[i], text[i]] + rest) == quoted + [text[i]] + [text[i]] + rest;
      assert quoted + ([text[i]] + rest) == quoted + [text[i]] + rest;
      if SingleQuote(text[i]) {
        quoted := quoted + [text[i]];
      }
      quoted := quoted + [text[i]];
    }
    quoted := quoted + "'";
  }

  /**
    PowerShell's literal string, after its opening quote: the text and what follows the closing
    quote. Any of the single quotes closes it unless another follows, which is then one literal.
  */
  function PowerShellLiteral(line: string): Option<(string, string)>
    decreases |line|
  {
    if line == "" then None
    else if !SingleQuote(line[0]) then
      match PowerShellLiteral(line[1..]) {
        case Some((text, rest)) => Some(([line[0]] + text, rest))
        case None => None
      }
    else if |line| == 1 || !SingleQuote(line[1]) then Some(("", line[1..]))
    else
      match PowerShellLiteral(line[2..]) {
        case Some((text, rest)) => Some(([line[1]] + text, rest))
        case None => None
      }
  }

  /** A word PowerShell would expand is read literally, and the string ends where the word does. */
  lemma {:induction false} PowerShellReadsBack(text: string, rest: string)
    requires rest == "" || !SingleQuote(rest[0])
    ensures PowerShellLiteral(PowerShellBody(text) + rest) == Some((text, rest))
  {
    var line := PowerShellBody(text) + rest;
    if text == "" {
      assert line[1..] == rest;
    } else {
      PowerShellReadsBack(text[1..], rest);
      assert [text[0]] + text[1..] == text;
      if SingleQuote(text[0]) {
        assert line[2..] == PowerShellBody(text[1..]) + rest;
      } else {
        assert line[1..] == PowerShellBody(text[1..]) + rest;
      }
    }
  }

  // ----- prompts (agentctl/src/harness/mod.rs) -----

  const MAX_INITIAL_PROMPT_ARGUMENT_BYTES := 64 * 1024

  /** `shell_single_quoted`, after its opening quote. */
  function SingleQuotedBody(value: string): string {
    if value == "" then "'"
    else (if value[0] == '\'' then "'\\''" else [value[0]]) + SingleQuotedBody(value[1..])
  }

  function SingleQuoted(value: string): string {
    "'" + SingleQuotedBody(value)
  }

  function Quotes(value: string): nat {
    if value == "" then 0 else (if value[0] == '\'' then 1 else 0) + Quotes(value[1..])
  }

  /** How many bytes UTF-8 takes for a character. */
  function Width(c: char): nat {
    if c < '\U{80}' then 1 else if c < '\U{800}' then 2 else if c < '\U{10000}' then 3 else 4
  }

  function Utf8Length(text: string): nat {
    if text == "" then 0 else Width(text[0]) + Utf8Length(text[1..])
  }

  datatype PromptError = ContainsNul | TooLarge

  /** `validate_initial_prompt`; a quote is one byte, and no other character has that byte. */
  function ValidateInitialPrompt(prompt: string): Result<(), PromptError> {
    if '\0' in prompt then Err(ContainsNul)
    else if Utf8Length(prompt) + 3 * Quotes(prompt) + 2 > MAX_INITIAL_PROMPT_ARGUMENT_BYTES then Err(TooLarge)
    else Ok(())
  }

  lemma {:induction false} ShellReadsSingleQuotedBody(value: string, rest: string, word: string)
    ensures ShellSplit(SingleQuotedBody(value) + rest, true, Some(word)) == ShellSplit(rest, false, Some(word + value))
  {
    var line := SingleQuotedBody(value) + rest;
    if value == "" {
      assert line[1..] == rest && word + value == word;
    } else {
      var after := SingleQuotedBody(value[1..]) + rest;
      if value[0] == '\'' {
        assert line == ['\'', '\\', '\'', '\''] + after;
        ShellReadsEscape('\'', after, word);
      } else {
        assert line[1..] == after;
      }
      ShellReadsSingleQuotedBody(value[1..], rest, word + [value[0]]);
      assert word + [value[0]] + value[1..] == word + value;
    }
  }

  lemma {:induction false} SingleQuotedBodyLength(value: string)
    ensures Utf8Length(SingleQuotedBody(value)) == Utf8Length(value) + 3 * Quotes(value) + 1
  {
    if value != "" {
      var after := SingleQuotedBody(value[1..]);
      SingleQuotedBodyLength(value[1..]);
      if value[0] == '\'' {
        FourBytes(after);
      } else {
        assert ([value[0]] + after)[1..] == after;
      }
    }
  }

  lemma FourBytes(after: string)
    ensures Utf8Length("'\\''" + after) == 4 + Utf8Length(after)
  {
    var line := "'\\''" + after;
    assert line[1..][1..] == line[2..] && line[2..][1..] == line[3..] && line[3..][1..] == after;
    assert Utf8Length(line[2..]) == 2 + Utf8Length(after);
  }

  /** A prompt is accepted exactly when its quoted argument fits, in bytes, and the shell reads that back whole. */
  lemma PromptIsReadBack(prompt: string)
    ensures ShellSplit(SingleQuoted(prompt), false, None) == Some([prompt])
    ensures ValidateInitialPrompt(prompt).Ok? <==>
      '\0' !in prompt && Utf8Length(SingleQuoted(prompt)) <= MAX_INITIAL_PROMPT_ARGUMENT_BYTES
  {
    var body := SingleQuotedBody(prompt);
    assert SingleQuoted(prompt)[1..] == body == body + "";
    assert "" + prompt == prompt && [prompt] + [] == [prompt];
    ShellReadsSingleQuotedBody(prompt, "", "");
    SingleQuotedBodyLength(prompt);
  }
}
