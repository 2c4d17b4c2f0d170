/** What single lines of a DNS credential file say, to the preflight parser and to the shell loader. */
module EnvFileLines {
  import opened Options
  import opened EnvFile
  import opened EnvFileAgreement
  import opened Text

  /** The characters of a variable name, one by one. */
  lemma NameCharacters(c: char)
    ensures WordChar(c) <==>
      c in {'A', 'B', 'C', 'D', 'E', 'F', 'G', 'H', 'I', 'J', 'K', 'L', 'M',
            'N', 'O', 'P', 'Q', 'R', 'S', 'T', 'U', 'V', 'W', 'X', 'Y', 'Z',
            'a', 'b', 'c', 'd', 'e', 'f', 'g', 'h', 'i', 'j', 'k', 'l', 'm',
            'n', 'o', 'p', 'q', 'r', 's', 't', 'u', 'v', 'w', 'x', 'y', 'z',
            '0', '1', '2', '3', '4', '5', '6', '7', '8', '9', '_'}
  {
    assert WordChar(c) <==> 65 <= c as int <= 90 || 97 <= c as int <= 122 || 48 <= c as int <= 57 || c as int == 95;
  }

  /** The line `key=value`, whatever the value is. */
  function Line(key: string, value: string): string {
    key + "=" + value
  }

  lemma ShellJudgeOfAssignment(key: string, value: string)
    requires KeyMatches(key) && Bare(value, ShellSpace) && value != ""
    ensures Trim(Line(key, value), ShellSpace) == Line(key, value)
    ensures ShellJudge(Line(key, value)) == Assign(key, value)
  {
    var line := Line(key, value);
    NamesAgree(key);
    NameIsBare(key);
    TrimIsBare(line, ShellSpace);
    TrimIsBare(key, ShellSpace);
    TrimIsBare(value, ShellSpace);
    assert '=' !in key && line[|key|] == '=' && line[..|key|] == key && line[|key| + 1..] == value;
    assert IndexOf(line, '=') == |key|;
    NoSpaceInName(key, value);
  }

  lemma NameIsBare(key: string)
    requires KeyMatches(key)
    ensures Bare(key, GoSpace) && Bare(key, ShellSpace)
  {
    NamesAgree(key);
    assert key[0] in key && key[|key| - 1] in key;
  }

  lemma BareForBoth(value: string)
    requires Bare(value, GoSpace)
    ensures Bare(value, ShellSpace)
  {
  }

  /** What both readers take from a line that assigns `value` as it is written. */
  lemma AssignmentIsRead(key: string, value: string, env: map<string, string>, s: Shell)
    requires KeyMatches(key) && Bare(value, GoSpace) && value != ""
    requires GoUnquote(value) != "" && ShellUnquote(value) != ""
    ensures GoLines([Line(key, value)], env) == Accepted(env[key := GoUnquote(value)])
    ensures var after := ShellLine(s, Line(key, value));
      after.Running? && after.shell.exported == s.exported + {key}
      && key in after.shell.vars && after.shell.vars[key] == ShellUnquote(value)
  {
    NameIsBare(key);
    BareForBoth(value);
    JudgeOfAssignment(key, value);
    ShellJudgeOfAssignment(key, value);
  }

  /** A value without quotes around it is taken as it is. */
  lemma PlainValue(key: string, value: string, env: map<string, string>, s: Shell)
    requires KeyMatches(key) && Bare(value, GoSpace) && value != "" && value[0] !in {'"', '\'', '`'}
    ensures GoLines([Line(key, value)], env) == Accepted(env[key := value])
    ensures var after := ShellLine(s, Line(key, value));
      after.Running? && key in after.shell.exported && key in after.shell.vars && after.shell.vars[key] == value
  {
    TrimIsBare(value, GoSpace);
    AssignmentIsRead(key, value, env, s);
  }

  lemma QuotedIsUnquoted(text: string, quote: char)
    requires quote in {'"', '\''}
    ensures var value := [quote] + text + [quote];
      Bare(value, GoSpace) && GoUnquote(value) == text && ShellUnquote(value) == text
  {
    var value := [quote] + text + [quote];
    TrimIsBare(value, GoSpace);
    assert value[1..|value| - 1] == text;
  }

  /** Double and single quotes around a value are dropped; what is inside is taken as it is, white
      space and other quotes included. */
  lemma QuotedValue(key: string, text: string, quote: char, env: map<string, string>, s: Shell)
    requires KeyMatches(key) && quote in {'"', '\''} && text != ""
    ensures var raw := Line(key, [quote] + text + [quote]);
      && GoLines([raw], env) == Accepted(env[key := text])
      && var after := ShellLine(s, raw);
         after.Running? && key in after.shell.exported && key in after.shell.vars && after.shell.vars[key] == text
  {
    QuotedIsUnquoted(text, quote);
    AssignmentIsRead(key, [quote] + text + [quote], env, s);
  }

  lemma {:induction false} NothingToDrop(s: string)
    requires '\r' !in s
    ensures WithoutReturns(s) == s
  {
    if s != "" {
      NothingToDrop(s[1..]);
    }
  }

  lemma RawIsUnquoted(text: string)
    requires '`' !in text && '\r' !in text
    ensures var value := "`" + text + "`";
      Bare(value, GoSpace) && GoUnquote(value) == text && ShellUnquote(value) == value
  {
    var value := "`" + text + "`";
    TrimIsBare(value, GoSpace);
    assert value[1..|value| - 1] == text;
    NothingToDrop(text);
  }

  /** Backticks are dropped by the parser only. */
  lemma RawValue(key: string, text: string, env: map<string, string>, s: Shell)
    requires KeyMatches(key) && '`' !in text && '\r' !in text && text != ""
    ensures var raw := Line(key, "`" + text + "`");
      && GoLines([raw], env) == Accepted(env[key := text])
      && var after := ShellLine(s, raw);
         after.Running? && key in after.shell.vars && after.shell.vars[key] == "`" + text + "`"
  {
    RawIsUnquoted(text);
    AssignmentIsRead(key, "`" + text + "`", env, s);
  }

  /** An assignment of nothing, or of empty quotes, is passed over. */
  lemma NoValue(key: string, value: string, env: map<string, string>, s: Shell)
    requires KeyMatches(key) && (value == "" || exists q :: q in {'"', '\''} && value == [q, q])
    ensures GoLines([Line(key, value)], env) == Accepted(env)
    ensures ShellLine(s, Line(key, value)).Running? && ShellLine(s, Line(key, value)).shell.exported == s.exported
  {
    if value == "" {
      EmptyValueIsJudged(key);
    } else {
      var q :| q in {'"', '\''} && value == [q, q];
      assert [q] + "" + [q] == value;
      QuotedIsUnquoted("", q);
      NameIsBare(key);
      BareForBoth(value);
      JudgeOfAssignment(key, value);
      ShellJudgeOfAssignment(key, value);
    }
  }

  lemma EmptyValueIsJudged(key: string)
    requires KeyMatches(key)
    ensures GoJudge(Line(key, "")) == Assign(key, "")
    ensures Trim(Line(key, ""), ShellSpace) == Line(key, "") && ShellJudge(Line(key, "")) == Assign(key, "")
  {
    var line := Line(key, "");
    NamesAgree(key);
    NameIsBare(key);
    TrimIsBare(line, GoSpace);
    TrimIsBare(line, ShellSpace);
    TrimIsBare(key, GoSpace);
    TrimIsBare(key, ShellSpace);
    assert '=' !in key && line[|key|] == '=' && line[..|key|] == key && line[|key| + 1..] == "";
    assert IndexOf(line, '=') == |key|;
    NoSpaceInName(key, "");
  }

  /** Comments and lines without an equals sign say nothing. */
  lemma SilentLine(line: string, env: map<string, string>, s: Shell)
    requires line != "" && Bare(line, GoSpace)
    requires line[0] == '#' || line[0] == ';' || ('=' !in line && !("export " <= line))
    ensures GoLines([line], env) == Accepted(env)
    ensures ShellLine(s, line) == Running(s.Set("line", line))
  {
    BareForBoth(line);
    TrimIsBare(line, GoSpace);
    TrimIsBare(line, ShellSpace);
    assert line[0] == '#' ==> Starts("#", line);
    assert line[0] == ';' ==> Starts(";", line);
    assert '=' !in line ==> IndexOf(line, '=') == |line|;
    var word := "export ";
    assert word <= line ==> line[0] == word[0];
  }

  /** Shell export syntax is refused, and so is a name with another character or a leading digit. */
  lemma RefusedLine(line: string, key: string, value: string, env: map<string, string>, s: Shell)
    requires line != "" && Bare(line, GoSpace) && line[0] != '#' && line[0] != ';'
    requires
      || "export " <= line
      || (line == Line(key, value) && '=' !in key && Bare(key, GoSpace) && !KeyMatches(key))
    ensures GoLines([line], env) == Rejected && ShellLine(s, line) == Stopped
  {
    BareForBoth(line);
    TrimIsBare(line, GoSpace);
    TrimIsBare(line, ShellSpace);
    if !("export " <= line) {
      BareForBoth(key);
      TrimIsBare(key, GoSpace);
      TrimIsBare(key, ShellSpace);
      NamesAgree(key);
      assert line[|key|] == '=' && line[..|key|] == key;
      assert IndexOf(line, '=') == |key|;
    }
  }

  /** A file is read line by line, the later lines over what the earlier ones have given. */
  lemma {:induction false} ReadInPieces(a: seq<string>, b: seq<string>, env: map<string, string>)
    ensures GoLines(a + b, env) == match GoLines(a, env) case Rejected => Rejected case Accepted(e) => GoLines(b, e)
    decreases |a|
  {
    if a == [] {
      assert a + b == b;
    } else {
      assert (a + b)[0] == a[0] && (a + b)[1..] == a[1..] + b;
      match GoJudge(a[0])
      case Skip => ReadInPieces(a[1..], b, env);
      case Reject =>
      case Assign(key, value) =>
        var v := GoUnquote(value);
        ReadInPieces(a[1..], b, if v == "" then env else env[key := v]);
    }
  }
}
