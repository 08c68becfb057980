/**
  Paths in the configuration for OpenSSH (agentctl/src/ssh/client_config.rs, `render_path`), on Unix:
  spelled from the user's home where they lie below it, quoted, and with their percents doubled.
*/
module ConfigPaths {
  import opened Wrappers
  import opened Quoting
  import opened ProxyCommand

  // ----- quoting -----

  function ConfigBody(text: string): string {
    if text == "" then "\""
    else if text[0] == '"' || text[0] == '\\' then ['\\', text[0]] + ConfigBody(text[1..])
    else [text[0]] + ConfigBody(text[1..])
  }

  function ConfigWord(text: string): string {
    if IsPlain(text) then text else "\"" + ConfigBody(text)
  }

  method QuoteConfigValue(text: string) returns (quoted: string)
    ensures quoted == ConfigWord(text)
  {
    if IsPlain(text) { return text; }
    quoted := "\"";
    for i := 0 to |text|
      invariant quoted + ConfigBody(text[i..]) == "\"" + ConfigBody(text)
    {
      ghost var rest := ConfigBody(text[i + 1..]);
      assert text[i..][1..] == text[i + 1..];
      if text[i] == '"' || text[i] == '\\' {
        assert quoted + (['\\', text[i]] + rest) == quoted + ['\\'] + [text[i]] + rest;
        quoted := quoted + ['\\'];
      } else {
        assert quoted + ([text[i]] + rest) == quoted + [text[i]] + rest;
      }
      quoted := quoted + [text[i]];
    }
    quoted := quoted + "\"";
  }

  lemma {:induction false} SshReadsConfigBody(text: string, word: string)
    ensures SshSplit(ConfigBody(text), Some('"'), Some(word)) == Some([word + text])
  {
    var body := ConfigBody(text);
    if text == "" {
      assert body[1..] == "";
      assert word + text == word;
      assert [word] + [] == [word];
    } else {
      SshReadsConfigBody(text[1..], word + [text[0]]);
      assert word + [text[0]] + text[1..] == word + text;
      if text[0] == '"' || text[0] == '\\' {
        assert body[2..] == ConfigBody(text[1..]);
      } else {
        assert body[1..] == ConfigBody(text[1..]);
      }
    }
  }

  lemma SshReadsConfigWord(text: string)
    ensures SshSplit(ConfigWord(text), None, None) == Some([text])
  {
    assert "" + text == text;
    if IsPlain(text) {
      SshReadsPlain(text, "", None);
      assert text + "" == text;
      assert [text] + [] == [text];
    } else {
      var word := ConfigWord(text);
      assert word[1..] == ConfigBody(text) && word[0] == '"';
      assert SshSplit(word, None, None) == SshSplit(ConfigBody(text), Some('"'), Some(""));
      SshReadsConfigBody(text, "");
    }
  }

  lemma {:induction false} DoubledConfigBody(text: string)
    ensures Doubled(ConfigBody(text)) == ConfigBody(Doubled(text))
  {
    if text == "" {
      NothingToDouble("\"");
    } else {
      DoubledConfigBody(text[1..]);
      var rest := ConfigBody(text[1..]);
      if text[0] == '"' || text[0] == '\\' {
        DoubledAppend(['\\', text[0]], rest);
        NothingToDouble(['\\', text[0]]);
        assert Doubled(text)[1..] == Doubled(text[1..]);
      } else {
        assert ConfigBody(text) == [text[0]] + rest;
        if text[0] == '%' {
          var after := Doubled(text[1..]);
          ConfigPercents(after);
          assert Doubled(text) == "%%" + after;
          assert ([text[0]] + rest)[1..] == rest;
        } else {
          assert Doubled(text)[1..] == Doubled(text[1..]);
          assert ([text[0]] + rest)[1..] == rest;
        }
      }
    }
  }

  lemma ConfigPercents(after: string)
    ensures ConfigBody("%%" + after) == "%%" + ConfigBody(after)
  {
    var one := "%" + after;
    assert one[1..] == after;
    assert ("%%" + after)[1..] == one;
    assert ConfigBody(one) == "%" + ConfigBody(after);
    assert ConfigBody("%%" + after) == "%" + ConfigBody(one);
  }

  lemma DoubledConfigWord(text: string)
    ensures Doubled(ConfigWord(text)) == ConfigWord(Doubled(text))
  {
    DoubledStaysPlain(text);
    if !IsPlain(text) {
      DoubledConfigBody(text);
      DoubledAppend("\"", ConfigBody(text));
      NothingToDouble("\"");
    }
  }

  lemma SshReadsDirective(keyword: string, text: string)
    requires IsPlain(keyword)
    ensures SshSplit(keyword + " " + ConfigWord(text), None, None) == Some([keyword, text])
  {
    var rest := " " + ConfigWord(text);
    assert keyword + " " + ConfigWord(text) == keyword + rest;
    SshReadsPlain(keyword, rest, None);
    assert "" + keyword == keyword;
    assert rest[1..] == ConfigWord(text);
    SshReadsConfigWord(text);
    assert [keyword] + [text] == [keyword, text];
  }

  // ----- components -----

  predicate Absolute(path: string) {
    path != "" && path[0] == '/'
  }

  /** A path's component, unless it is empty or the directory itself. */
  function Part(word: string): seq<string> {
    if word == "" || word == "." then [] else [word]
  }

  function ComponentsAfter(word: string, rest: string): seq<string>
    decreases |rest|
  {
    if rest == "" then Part(word)
    else if rest[0] == '/' then Part(word) + ComponentsAfter("", rest[1..])
    else ComponentsAfter(word + [rest[0]], rest[1..])
  }

  /** The components of an absolute path below its root. */
  function Components(path: string): seq<string> {
    ComponentsAfter("", path)
  }

  predicate IsComponent(word: string) {
    word != "" && word != "." && '/' !in word
  }

  predicate AreComponents(words: seq<string>) {
    forall i :: 0 <= i < |words| ==> IsComponent(words[i])
  }

  lemma {:induction false} EachIsComponent(word: string, rest: string)
    requires '/' !in word
    ensures AreComponents(ComponentsAfter(word, rest))
    decreases |rest|
  {
    if rest != "" {
      if rest[0] == '/' {
        EachIsComponent("", rest[1..]);
      } else {
        EachIsComponent(word + [rest[0]], rest[1..]);
      }
    }
  }

  lemma {:induction false} ComponentsJoin(word: string, path: string, rest: string)
    ensures ComponentsAfter(word, path + "/" + rest) == ComponentsAfter(word, path) + Components(rest)
    decreases |path|
  {
    var whole := path + "/" + rest;
    if path == "" {
      assert whole[1..] == rest;
    } else {
      assert whole[1..] == path[1..] + "/" + rest;
      if path[0] == '/' {
        ComponentsJoin("", path[1..], rest);
      } else {
        ComponentsJoin(word + [path[0]], path[1..], rest);
      }
    }
  }

  lemma {:induction false} OneComponent(word: string, rest: string)
    requires '/' !in rest
    ensures ComponentsAfter(word, rest) == Part(word + rest)
    decreases |rest|
  {
    if rest == "" {
      assert word + rest == word;
    } else {
      OneComponent(word + [rest[0]], rest[1..]);
      assert word + [rest[0]] + rest[1..] == word + rest;
    }
  }

  // ----- paths below the user's home -----

  function Slashed(parts: seq<string>): string {
    if parts == [] then "" else "/" + parts[0] + Slashed(parts[1..])
  }

  lemma {:induction false} SlashedComponents(first: string, parts: seq<string>)
    requires IsComponent(first) && AreComponents(parts)
    ensures Components(first + Slashed(parts)) == [first] + parts
    decreases |parts|
  {
    ComponentItself(first);
    if parts == [] {
      assert first + "" == first && [first] + [] == [first];
    } else {
      SlashedComponents(parts[0], parts[1..]);
      ComponentsJoin("", first, parts[0] + Slashed(parts[1..]));
      SlashedFirst(first, parts);
    }
  }

  lemma ComponentItself(word: string)
    requires IsComponent(word)
    ensures Components(word) == [word]
  {
    OneComponent("", word);
    assert "" + word == word;
  }

  lemma SlashedFirst(first: string, parts: seq<string>)
    requires parts != []
    ensures first + Slashed(parts) == first + "/" + (parts[0] + Slashed(parts[1..]))
    ensures [first] + ([parts[0]] + parts[1..]) == [first] + parts
  {
    assert [parts[0]] + parts[1..] == parts;
  }

  predicate Below(path: string, home: string) {
    Components(home) < Components(path)
  }

  /** How a path is spelled: from the user's home when it lies below it, else as it was given. */
  function Spelled(path: string, userHome: Option<string>): string {
    match userHome
    case Some(home) => if Below(path, home) then "~" + Slashed(Components(path)[|Components(home)|..]) else path
    case None => path
  }

  /** `render_path`. */
  function RenderPath(path: string, userHome: Option<string>): string {
    Doubled(ConfigWord(Spelled(path, userHome)))
  }

  /** What OpenSSH makes of a tilde for the user's own home. */
  function TildeExpanded(text: string, home: string): string {
    if "~/" <= text then
      if home != "" && home[|home| - 1] == '/' then home + text[2..] else home + "/" + text[2..]
    else text
  }

  lemma TildeJoins(tail: string, home: string)
    ensures Components(TildeExpanded("~/" + tail, home)) == Components(home) + Components(tail)
  {
    assert ("~/" + tail)[2..] == tail;
    if home != "" && home[|home| - 1] == '/' {
      var directory := home[..|home| - 1];
      assert home == directory + "/" + "";
      assert home + tail == directory + "/" + tail;
      ComponentsJoin("", directory, "");
      ComponentsJoin("", directory, tail);
    } else {
      ComponentsJoin("", home, tail);
    }
  }

  lemma BelowIsReadBack(path: string, home: string)
    requires Below(path, home)
    ensures Components(TildeExpanded(Spelled(path, Some(home)), home)) == Components(path)
  {
    var all, above := Components(path), Components(home);
    var below := all[|above|..];
    EachIsComponent("", path);
    SpelledIsReadBack(below, home);
    assert above + below == all;
  }

  lemma SpelledIsReadBack(parts: seq<string>, home: string)
    requires AreComponents(parts) && parts != []
    ensures Components(TildeExpanded("~" + Slashed(parts), home)) == Components(home) + parts
  {
    SlashedFirst("~", parts);
    SlashedComponents(parts[0], parts[1..]);
    TildeJoins(parts[0] + Slashed(parts[1..]), home);
    assert [parts[0]] + parts[1..] == parts;
    assert "~" + "/" == "~/";
  }

  /**
    A path directive, such as `IdentityFile`, is read by OpenSSH as its keyword and one word.
    Expanding that word's percents gives the path as it was given, or, below the user's home, a
    spelling whose tilde expands to a path of the same components.
  */
  lemma PathDirectiveIsReadBack(keyword: string, path: string, userHome: Option<string>)
    requires IsPlain(keyword) && Absolute(path) && (userHome.Some? ==> Absolute(userHome.value))
    ensures SshSplit(keyword + " " + RenderPath(path, userHome), None, None)
         == Some([keyword, Doubled(Spelled(path, userHome))])
    ensures Undoubled(Doubled(Spelled(path, userHome))) == Some(Spelled(path, userHome))
    ensures userHome == None || !Below(path, userHome.value) ==> Spelled(path, userHome) == path
    ensures userHome.Some? ==>
      Components(TildeExpanded(Spelled(path, userHome), userHome.value)) == Components(path)
  {
    var text := Spelled(path, userHome);
    UndoubledDoubled(text);
    DoubledConfigWord(text);
    SshReadsDirective(keyword, Doubled(text));
    if userHome.Some? && Below(path, userHome.value) {
      BelowIsReadBack(path, userHome.value);
    }
  }
}
