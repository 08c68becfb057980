/**
  The lines `agentd` writes for OpenSSH (agentctl/src/ssh/client_config.rs), read back by everything
  that reads them: OpenSSH's words, its percent expansion, and the host's shell.
*/
module ProxyCommand {
  import opened Wrappers
  import opened Quoting

  // ----- percent expansion -----

  /** `replace('%', "%%")`. */
  function Doubled(text: string): string {
    if text == "" then "" else (if text[0] == '%' then "%%" else [text[0]]) + Doubled(text[1..])
  }

  /** OpenSSH's expansion of text whose only percents are literal ones; anything else is substituted. */
  function Undoubled(text: string): Option<string>
    decreases |text|
  {
    if text == "" then Some("")
    else if text[0] == '%' then
      if |text| > 1 && text[1] == '%' then
        match Undoubled(text[2..]) {
          case Some(rest) => Some("%" + rest)
          case None => None
        }
      else None
    else
      match Undoubled(text[1..]) {
        case Some(rest) => Some([text[0]] + rest)
        case None => None
      }
  }

  lemma {:induction false} UndoubledDoubled(text: string)
    ensures Undoubled(Doubled(text)) == Some(text)
  {
    if text == "" {
    } else {
      UndoubledDoubled(text[1..]);
      var d := Doubled(text);
      if text[0] == '%' {
        assert d[2..] == Doubled(text[1..]);
      } else {
        assert d[1..] == Doubled(text[1..]);
      }
      assert [text[0]] + text[1..] == text;
    }
  }

  lemma {:induction false} DoubledAppend(a: string, b: string)
    ensures Doubled(a + b) == Doubled(a) + Doubled(b)
  {
    if a == "" {
      assert a + b == b;
    } else {
      assert (a + b)[1..] == a[1..] + b;
      DoubledAppend(a[1..], b);
    }
  }

  lemma {:induction false} NothingToDouble(text: string)
    requires '%' !in text
    ensures Doubled(text) == text
  {
    if text == "" {
    } else {
      NothingToDouble(text[1..]);
    }
  }

  lemma {:induction false} DoubledStaysPlain(text: string)
    ensures IsPlain(Doubled(text)) <==> IsPlain(text)
    ensures IsPlain(text) ==> Doubled(text) == text
  {
    if IsPlain(text) {
      forall i | 0 <= i < |text|
        ensures text[i] != '%'
      {
        assert IsPlainChar(text[i]);
      }
      NothingToDouble(text);
    } else if text != "" {
      var i :| 0 <= i < |text| && !IsPlainChar(text[i]);
      DoubledKeeps(text, i);
    }
  }

  /** Every character is still there after doubling. */
  lemma {:induction false} DoubledKeeps(text: string, i: nat)
    requires i < |text|
    ensures exists j :: 0 <= j < |Doubled(text)| && Doubled(text)[j] == text[i]
  {
    var d := Doubled(text);
    if i == 0 {
      assert d[0] == text[0];
    } else {
      DoubledKeeps(text[1..], i - 1);
      var j :| 0 <= j < |Doubled(text[1..])| && Doubled(text[1..])[j] == text[1..][i - 1];
      assert d[|d| - |Doubled(text[1..])| + j] == text[i];
    }
  }

  lemma PosixPercents(after: string)
    ensures PosixBody("%%" + after) == "%%" + PosixBody(after)
  {
    var one := "%" + after;
    assert one[1..] == after;
    assert ("%%" + after)[1..] == one;
    assert PosixBody(one) == "%" + PosixBody(after);
    assert PosixBody("%%" + after) == "%" + PosixBody(one);
  }

  lemma DoubledPosixPart(c: char)
    ensures Doubled(PosixPart(c)) == if c == '%' then "%%" else PosixPart(c)
  {
    if c != '%' { NothingToDouble(PosixPart(c)); }
  }

  lemma {:induction false} DoubledPosixBody(text: string)
    ensures Doubled(PosixBody(text)) == PosixBody(Doubled(text))
  {
    if text == "" {
      NothingToDouble("'");
    } else {
      var after := Doubled(text[1..]);
      DoubledPosixBody(text[1..]);
      DoubledPosixPart(text[0]);
      DoubledAppend(PosixPart(text[0]), PosixBody(text[1..]));
      if text[0] == '%' {
        PosixPercents(after);
      } else {
        assert ([text[0]] + after)[1..] == after;
      }
    }
  }

  /** Doubling a quoted word quotes the doubled text: `%` needs quotes and has no escape of its own. */
  lemma DoubledPosixWord(text: string)
    ensures Doubled(PosixWord(text)) == PosixWord(Doubled(text))
  {
    DoubledStaysPlain(text);
    if !IsPlain(text) {
      DoubledPosixBody(text);
      DoubledAppend("'", PosixBody(text));
      NothingToDouble("'");
    }
  }

  // ----- the command -----

  datatype CommandShell = Posix | Windows

  datatype Unwritable = LineBreak(text: string)

  predicate OneLine(text: string) {
    '\n' !in text && '\r' !in text && '\0' !in text
  }

  // ----- the home's spelling -----

  predicate AllSeparators(path: string) {
    forall i :: 0 <= i < |path| ==> path[i] == '/'
  }

  /** A Unix path without a parent: the root, however many separators and single dots it is spelled with. */
  predicate IsRoot(path: string) {
    && path != ""
    && path[0] == '/'
    && (forall i :: 0 <= i < |path| ==> path[i] == '/' || path[i] == '.')
    && (forall i :: 0 <= i < |path| - 1 ==> path[i] == '/' || path[i + 1] == '/')
  }

  function Trimmed(path: string): string {
    if path == "" || path[|path| - 1] != '/' || IsRoot(path) then path else Trimmed(path[..|path| - 1])
  }

  /** Exactly the separators a path ends with are gone, unless it is the root. */
  lemma {:induction false} TrimmedIs(path: string)
    ensures Trimmed(path) <= path && AllSeparators(path[|Trimmed(path)|..])
    ensures IsRoot(path) ==> Trimmed(path) == path
    ensures !IsRoot(path) && path != "" ==> Trimmed(path) != "" && Trimmed(path)[|Trimmed(path)| - 1] != '/'
  {
    if path != "" && path[|path| - 1] == '/' && !IsRoot(path) {
      var shorter := path[..|path| - 1];
      RootGrows(shorter);
      assert path == shorter + "/";
      TrimmedIs(shorter);
    }
  }

  lemma RootGrows(path: string)
    ensures path == "" || IsRoot(path) ==> IsRoot(path + "/")
  {
  }

  /** `without_trailing_separator`, for Unix paths. */
  method WithoutTrailingSeparator(path: string) returns (text: string)
    ensures text == Trimmed(path)
  {
    text := path;
    while text != "" && text[|text| - 1] == '/'
      invariant Trimmed(text) == Trimmed(path)
      decreases |text|
    {
      if IsRoot(text) { break; }
      text := text[..|text| - 1];
    }
  }

  /** A home fits on a line, or is one the shell would expand, as the directory it names without those separators. */
  lemma TrimmedReadsAlike(path: string)
    ensures OneLine(Trimmed(path)) <==> OneLine(path)
    ensures Expandable(Trimmed(path)) <==> Expandable(path)
  {
    TrimmedIs(path);
    var kept := Trimmed(path);
    assert path == kept + path[|kept|..];
    if path != "" {
      assert kept != "";
      SeparatorsArePlain(kept, path[|kept|..]);
    }
  }

  lemma SeparatorsArePlain(kept: string, rest: string)
    requires kept != "" && AllSeparators(rest)
    ensures OneLine(kept + rest) <==> OneLine(kept)
    ensures IsPlain(kept + rest) <==> IsPlain(kept)
  {
    assert forall i :: 0 <= i < |kept| ==> (kept + rest)[i] == kept[i];
    assert forall i :: |kept| <= i < |kept + rest| ==> (kept + rest)[i] == '/';
  }

  // ----- what is written -----

  function Word(text: string, shell: CommandShell): string {
    match shell
    case Posix => PosixWord(text)
    case Windows => WindowsWord(text)
  }

  /** `command_word`. */
  function CommandWord(text: string, shell: CommandShell): Result<string, Unwritable> {
    if !OneLine(text) then Err(LineBreak(text)) else Ok(Doubled(Word(text, shell)))
  }

  function ProxyArguments(agent: string): string {
    "ssh-proxy agent/" + agent
  }

  /** The home as the command names it; on Windows it is given without the separators it ends with. */
  function Directory(home: string, shell: CommandShell): string {
    match shell
    case Posix => Trimmed(home)
    case Windows => home
  }

  /** `render_proxy_command`. */
  function RenderProxyCommand(
    executable: string, home: string, agent: string, shell: CommandShell
  ): Result<string, Unwritable> {
    match CommandWord(executable, shell)
    case Err(error) => Err(error)
    case Ok(program) =>
      match CommandWord(Directory(home, shell), shell)
      case Err(error) => Err(error)
      case Ok(directory) => Ok(Command(program, directory, agent))
  }

  /** An agent's name: lower-case letters, digits and hyphens. */
  predicate AgentName(name: string) {
    name != "" && forall i :: 0 <= i < |name| ==> 'a' <= name[i] <= 'z' || '0' <= name[i] <= '9' || name[i] == '-'
  }

  function Words(executable: string, directory: string, agent: string): seq<string> {
    [executable, "--home", directory, "ssh-proxy", "agent/" + agent]
  }

  function Line(words: seq<string>, shell: CommandShell): string {
    match shell
    case Posix => PosixLine(words)
    case Windows => WindowsLine(words)
  }

  /** The words the host's shell runs, if it takes the command literally. */
  function Split(line: string, shell: CommandShell): Option<seq<string>> {
    match shell
    case Posix => ShellSplit(line, false, None)
    case Windows => Some(WindowsSplit(line, false, None, 0))
  }

  /** A word the printers leave alone. */
  lemma PlainWord(text: string, shell: CommandShell)
    requires IsPlain(text)
    ensures Word(text, shell) == text && Doubled(text) == text
  {
    DoubledStaysPlain(text);
  }

  lemma ArgumentsArePlain(agent: string)
    requires AgentName(agent)
    ensures IsPlain("--home") && IsPlain("ssh-proxy") && IsPlain("agent/" + agent)
  {
    var last := "agent/" + agent;
    forall i | 0 <= i < |last|
      ensures IsPlainChar(last[i])
    {
      if i >= 6 { assert last[i] == agent[i - 6]; }
    }
  }

  lemma LineOfFive(a: string, b: string, c: string, d: string, e: string, shell: CommandShell)
    ensures Line([a, b, c, d, e], shell) ==
      Word(a, shell) + " " + (Word(b, shell) + " " + (Word(c, shell) + " " + (Word(d, shell) + " " + Word(e, shell))))
  {
    var words := [a, b, c, d, e];
    var quoted := seq(5, i requires 0 <= i < 5 => Word(words[i], shell));
    assert quoted == [Word(a, shell), Word(b, shell), Word(c, shell), Word(d, shell), Word(e, shell)];
    match shell {
      case Posix => assert quoted == seq(|words|, i requires 0 <= i < |words| => PosixWord(words[i]));
      case Windows => assert quoted == seq(|words|, i requires 0 <= i < |words| => WindowsWord(words[i]));
    }
    JoinedFive(quoted);
  }

  lemma JoinedFive(q: seq<string>)
    requires |q| == 5
    ensures Joined(q) == q[0] + " " + (q[1] + " " + (q[2] + " " + (q[3] + " " + q[4])))
  {
    assert Joined(q[3..]) == q[3] + " " + Joined(q[4..]);
    assert q[1..][1..] == q[2..] && q[2..][1..] == q[3..];
    assert Joined(q[2..]) == q[2] + " " + Joined(q[3..]);
    assert Joined(q[1..]) == q[1] + " " + Joined(q[2..]);
  }

  function Command(program: string, home: string, agent: string): string {
    program + " --home " + home + " " + ProxyArguments(agent)
  }

  lemma CommandIsFiveWords(program: string, home: string, agent: string)
    ensures Command(program, home, agent)
      == program + " " + ("--home" + " " + (home + " " + ("ssh-proxy" + " " + ("agent/" + agent))))
  {
    assert ProxyArguments(agent) == "ssh-proxy" + " " + ("agent/" + agent);
    assert " --home " == " " + "--home" + " ";
  }

  lemma DoubledCommand(program: string, home: string, agent: string)
    requires AgentName(agent)
    ensures Doubled(Command(program, home, agent)) == Command(Doubled(program), Doubled(home), agent)
  {
    var tail := " " + ProxyArguments(agent);
    CommandEnds(program, home, agent);
    CommandEnds(Doubled(program), Doubled(home), agent);
    TailHasNoPercent(agent);
    NothingToDouble(tail);
    DoubledAppend(program + " --home " + home, tail);
    DoubledAppend(program + " --home ", home);
    DoubledFront(program);
  }

  lemma CommandEnds(program: string, home: string, agent: string)
    ensures Command(program, home, agent) == program + " --home " + home + (" " + ProxyArguments(agent))
  {
  }

  lemma DoubledFront(program: string)
    ensures Doubled(program + " --home ") == Doubled(program) + " --home "
  {
    DoubledAppend(program, " --home ");
    NothingToDouble(" --home ");
  }

  lemma LineIsTheCommand(executable: string, directory: string, agent: string, shell: CommandShell)
    requires AgentName(agent)
    ensures Line(Words(executable, directory, agent), shell)
      == Command(Word(executable, shell), Word(directory, shell), agent)
  {
    ArgumentsArePlain(agent);
    PlainWord("--home", shell);
    PlainWord("ssh-proxy", shell);
    PlainWord("agent/" + agent, shell);
    LineOfFive(executable, "--home", directory, "ssh-proxy", "agent/" + agent, shell);
    CommandIsFiveWords(Word(executable, shell), Word(directory, shell), agent);
  }

  /** What is written is the quoted line, with every percent doubled. */
  lemma RenderedIsTheDoubledLine(executable: string, home: string, agent: string, shell: CommandShell)
    requires AgentName(agent) && OneLine(executable) && OneLine(home)
    ensures RenderProxyCommand(executable, home, agent, shell)
         == Ok(Doubled(Line(Words(executable, Directory(home, shell), agent), shell)))
  {
    var directory := Directory(home, shell);
    TrimmedReadsAlike(home);
    LineIsTheCommand(executable, directory, agent, shell);
    DoubledCommand(Word(executable, shell), Word(directory, shell), agent);
  }

  lemma TailHasNoPercent(agent: string)
    requires AgentName(agent)
    ensures '%' !in " " + ProxyArguments(agent)
  {
    var tail := " " + ProxyArguments(agent);
    forall i | 0 <= i < |tail|
      ensures tail[i] != '%'
    {
      if i >= 17 { assert tail[i] == agent[i - 17]; }
    }
  }

  /**
    The command survives its readers. It is written exactly when both paths fit on one line; then
    undoing the percents and splitting as the host's shell does gives the executable, `--home`, the
    home without the separators it ends with, `ssh-proxy` and `agent/<name>`, exactly when (under the
    POSIX shell) neither path as given is one the shell would expand.
  */
  lemma ProxyCommandReadBackExactlyWhen(executable: string, home: string, agent: string, shell: CommandShell)
    requires AgentName(agent)
    ensures
      var rendered := RenderProxyCommand(executable, home, agent, shell);
      && (rendered.Ok? <==> OneLine(executable) && OneLine(home))
      && (rendered.Ok? ==>
          var line := Undoubled(rendered.value);
          && line.Some?
          && (Split(line.value, shell) == Some(Words(executable, Directory(home, shell), agent))
              <==> shell == Windows || (!Expandable(executable) && !Expandable(home))))
  {
    TrimmedReadsAlike(home);
    if OneLine(executable) && OneLine(home) {
      var words := Words(executable, Directory(home, shell), agent);
      RenderedIsTheDoubledLine(executable, home, agent, shell);
      UndoubledDoubled(Line(words, shell));
      LineReadBackExactlyWhen(executable, Directory(home, shell), agent, shell);
    }
  }

  lemma LineReadBackExactlyWhen(executable: string, directory: string, agent: string, shell: CommandShell)
    requires AgentName(agent)
    ensures
      var words := Words(executable, directory, agent);
      Split(Line(words, shell), shell) == Some(words)
      <==> shell == Windows || (!Expandable(executable) && !Expandable(directory))
  {
    var words := Words(executable, directory, agent);
    match shell {
      case Posix =>
        PosixReadersAgreeExactlyWhen(words);
        assert words[0] == executable && words[2] == directory;
      case Windows => WindowsRoundTrip(words);
    }
  }

  /** OpenSSH, which checks every line's quotes before it expands or runs anything, accepts the line. */
  lemma OpenSshAcceptsTheLine(executable: string, home: string, agent: string)
    requires AgentName(agent) && OneLine(executable) && OneLine(home)
    ensures
      var rendered := RenderProxyCommand(executable, home, agent, Posix);
      && rendered.Ok?
      && SshSplit(rendered.value, None, None) == Some(Words(Doubled(executable), Doubled(Trimmed(home)), agent))
  {
    var directory := Trimmed(home);
    TrimmedReadsAlike(home);
    DoubledPosixWord(executable);
    DoubledPosixWord(directory);
    LineIsTheCommand(Doubled(executable), Doubled(directory), agent, Posix);
    SshRoundTrip(Words(Doubled(executable), Doubled(directory), agent));
  }

  // ----- recognising the command -----

  predicate Whitespace(c: char) {
    || '\t' <= c <= '\r' || c == ' ' || c == '\U{85}' || c == '\U{A0}'
    || c == '\U{1680}' || '\U{2000}' <= c <= '\U{200A}' || c == '\U{2028}'
    || c == '\U{2029}' || c == '\U{202F}' || c == '\U{205F}' || c == '\U{3000}'
  }

  function TrimEnd(text: string): string {
    if text != "" && Whitespace(text[|text| - 1]) then TrimEnd(text[..|text| - 1]) else text
  }

  predicate EndsWith(text: string, suffix: string) {
    |suffix| <= |text| && text[|text| - |suffix|..] == suffix
  }

  /** `split_once(' ')`. */
  function SplitOnce(line: string): Option<(string, string)> {
    if line == "" then None
    else if line[0] == ' ' then Some(("", line[1..]))
    else
      match SplitOnce(line[1..]) {
        case Some((key, value)) => Some(([line[0]] + key, value))
        case None => None
      }
  }

  /** `resolves_through_agentctl`, over the lines of what `ssh -G` prints. */
  predicate ResolvesThroughAgentctl(resolved: seq<string>, agent: string) {
    exists i :: 0 <= i < |resolved| && DialsAgent(resolved[i], agent)
  }

  predicate DialsAgent(line: string, agent: string) {
    match SplitOnce(line)
    case Some((key, value)) => key == "proxycommand" && EndsWith(TrimEnd(value), " " + ProxyArguments(agent))
    case None => false
  }

  lemma {:induction false} SplitOnceAtTheKey(key: string, value: string)
    requires ' ' !in key
    ensures SplitOnce(key + " " + value) == Some((key, value))
  {
    var line := key + " " + value;
    if key == "" {
      assert line[1..] == value;
    } else {
      assert line[1..] == key[1..] + " " + value;
      assert line[0] == key[0];
      SplitOnceAtTheKey(key[1..], value);
      assert [key[0]] + key[1..] == key;
    }
  }

  lemma NameAfterSlash(value: string, agent: string)
    requires EndsWith(value, " " + ProxyArguments(agent))
    ensures |agent| < |value| && value[|value| - |agent| - 1] == '/' && value[|value| - |agent|..] == agent
  {
    var n, tail := |value|, " " + ProxyArguments(agent);
    assert tail == " ssh-proxy agent/" + agent && |" ssh-proxy agent/"| == 17;
    assert value[n - |tail|..][16] == tail[16] == '/';
    assert value[n - |agent|..] == value[n - |tail|..][17..] == tail[17..] == agent;
  }

  /** A name that ends a value lies after every slash of it. */
  lemma NoSlashInTheName(value: string, agent: string, i: nat)
    requires AgentName(agent) && |agent| <= |value| && value[|value| - |agent|..] == agent
    requires i < |value| && value[i] == '/'
    ensures i + |agent| < |value|
  {
    var start := |value| - |agent|;
    forall j | start <= j < |value|
      ensures value[j] != '/'
    {
      assert value[j] == value[start..][j - start] == agent[j - start];
    }
  }

  /** Two names that end one value, each after a slash, are one name. */
  lemma SameName(value: string, a: string, b: string)
    requires AgentName(a) && AgentName(b)
    requires EndsWith(value, " " + ProxyArguments(a)) && EndsWith(value, " " + ProxyArguments(b))
    ensures a == b
  {
    NameAfterSlash(value, a);
    NameAfterSlash(value, b);
    NoSlashInTheName(value, b, |value| - |a| - 1);
    NoSlashInTheName(value, a, |value| - |b| - 1);
  }

  lemma CommandEndsWithItsAgent(program: string, home: string, agent: string)
    requires AgentName(agent)
    ensures EndsWith(Command(program, home, agent), " " + ProxyArguments(agent))
    ensures TrimEnd(Command(program, home, agent)) == Command(program, home, agent)
  {
    var value, tail := Command(program, home, agent), " " + ProxyArguments(agent);
    assert value == program + " --home " + home + tail;
    assert value[|value| - |tail|..] == tail;
    assert value[|value| - 1] == tail[|tail| - 1] == agent[|agent| - 1];
  }

  lemma CommandIsForItsOwnAgentOnly(program: string, directory: string, a: string, b: string)
    requires AgentName(a) && AgentName(b)
    ensures EndsWith(TrimEnd(Command(program, directory, a)), " " + ProxyArguments(b)) <==> a == b
  {
    CommandEndsWithItsAgent(program, directory, a);
    if EndsWith(Command(program, directory, a), " " + ProxyArguments(b)) {
      SameName(Command(program, directory, a), a, b);
    }
  }

  lemma DialsWhatItsValueEndsWith(value: string, agent: string)
    ensures DialsAgent("proxycommand " + value, agent) <==> EndsWith(TrimEnd(value), " " + ProxyArguments(agent))
  {
    assert "proxycommand" + " " + value == "proxycommand " + value;
    SplitOnceAtTheKey("proxycommand", value);
  }

  lemma DialsItsOwnAgentOnly(executable: string, home: string, a: string, b: string, shell: CommandShell)
    requires AgentName(a) && AgentName(b)
    requires RenderProxyCommand(executable, home, a, shell).Ok?
    ensures DialsAgent("proxycommand " + RenderProxyCommand(executable, home, a, shell).value, b) <==> a == b
  {
    DialsWhatItsValueEndsWith(RenderProxyCommand(executable, home, a, shell).value, b);
    CommandIsForItsOwnAgentOnly(
      CommandWord(executable, shell).value, CommandWord(Directory(home, shell), shell).value, a, b
    );
  }

  predicate IsProxyCommand(line: string) {
    SplitOnce(line).Some? && SplitOnce(line).value.0 == "proxycommand"
  }

  /**
    Where OpenSSH resolves to the command written for one agent, whatever its paths and whatever else
    it prints, the configuration is recognised for that agent and for no other; where it resolves to
    no command at all, for none.
  */
  lemma ResolvesForItsOwnAgentOnly(
    resolved: seq<string>, at: nat, executable: string, home: string, a: string, b: string, shell: CommandShell
  )
    requires AgentName(a) && AgentName(b)
    requires RenderProxyCommand(executable, home, a, shell).Ok?
    requires at <= |resolved| && forall i :: 0 <= i < |resolved| && i != at ==> !IsProxyCommand(resolved[i])
    requires at < |resolved| ==> resolved[at] == "proxycommand " + RenderProxyCommand(executable, home, a, shell).value
    ensures ResolvesThroughAgentctl(resolved, b) <==> at < |resolved| && a == b
  {
    DialsItsOwnAgentOnly(executable, home, a, b, shell);
  }
}
