/** When the preflight parser and the shell loader read the same variables from a file. */
module EnvFileAgreement {
  import opened Options
  import opened EnvFile
  import opened Text

  // ------------------------------------------------------------------ trimming

  /** The only white space in `s` is what the loader trims. */
  predicate PlainSpaces(s: string) {
    forall c <- s :: GoSpace(c) ==> ShellSpace(c)
  }

  lemma {:induction false} TrimsAgree(s: string)
    requires PlainSpaces(s)
    ensures TrimLeft(s, GoSpace) == TrimLeft(s, ShellSpace)
    ensures TrimRight(s, GoSpace) == TrimRight(s, ShellSpace)
    decreases |s|
  {
    if s != "" {
      assert s[0] in s && s[|s| - 1] in s;
      TrimsAgree(s[1..]);
      TrimsAgree(s[..|s| - 1]);
    }
  }

  lemma {:induction false} TrimKeeps(s: string, space: char -> bool)
    ensures forall c <- TrimLeft(s, space) :: c in s
    ensures forall c <- TrimRight(s, space) :: c in s
    decreases |s|
  {
    if s != "" {
      TrimKeeps(s[1..], space);
      TrimKeeps(s[..|s| - 1], space);
    }
  }

  lemma TrimAgrees(s: string)
    requires PlainSpaces(s)
    ensures Trim(s, GoSpace) == Trim(s, ShellSpace) && PlainSpaces(Trim(s, ShellSpace))
  {
    TrimsAgree(s);
    TrimKeeps(s, ShellSpace);
    TrimsAgree(TrimLeft(s, ShellSpace));
    TrimKeeps(TrimLeft(s, ShellSpace), ShellSpace);
  }

  predicate Bare(s: string, space: char -> bool) {
    s == "" || (!space(s[0]) && !space(s[|s| - 1]))
  }

  lemma {:induction false} TrimIsBare(s: string, space: char -> bool)
    ensures Bare(Trim(s, space), space) && (Bare(s, space) ==> Trim(s, space) == s)
    decreases |s|
  {
    if s != "" && space(s[0]) {
      TrimIsBare(s[1..], space);
    } else if s != "" && space(s[|s| - 1]) {
      TrimIsBare(s[..|s| - 1], space);
    }
  }

  /** In general the two trimmings agree exactly when no other white space is left at the ends. */
  lemma TrimsAgreeIff(s: string)
    ensures Trim(s, GoSpace) == Trim(s, ShellSpace) <==> Bare(Trim(s, ShellSpace), GoSpace)
  {
    TrimIsBare(s, GoSpace);
    TrimIsBare(Trim(s, ShellSpace), GoSpace);
    TrimTwice(s);
  }

  lemma {:induction false} TrimTwice(s: string)
    ensures Trim(Trim(s, ShellSpace), GoSpace) == Trim(s, GoSpace)
    decreases |s|
  {
    if s != "" && ShellSpace(s[0]) {
      TrimTwice(s[1..]);
    } else if s != "" && ShellSpace(s[|s| - 1]) {
      TrimTwice(s[..|s| - 1]);
      TrimDropsLast(s);
    }
  }

  /** White space at the end does not matter. */
  lemma {:induction false} TrimDropsLast(s: string)
    requires s != "" && GoSpace(s[|s| - 1])
    ensures Trim(s, GoSpace) == Trim(s[..|s| - 1], GoSpace)
    decreases |s|
  {
    var front := s[..|s| - 1];
    if |s| > 1 && GoSpace(s[0]) {
      TrimDropsLast(s[1..]);
      assert s[1..][..|s| - 2] == front[1..];
      assert Trim(front, GoSpace) == Trim(front[1..], GoSpace);
    } else if |s| > 1 {
      assert TrimLeft(s, GoSpace) == s && TrimLeft(front, GoSpace) == front;
    } else {
      assert front == "" && TrimLeft(s, GoSpace) == "";
    }
  }

  // ------------------------------------------------------------------ one line

  lemma NamesAgree(key: string)
    ensures KeyMatches(key) <==> !BadName(key)
  {
    if key != "" {
      assert key == [key[0]] + key[1..];
    }
  }

  lemma JudgesAgree(raw: string)
    requires PlainSpaces(raw)
    ensures GoJudge(raw) == ShellJudge(Trim(raw, ShellSpace))
  {
    TrimAgrees(raw);
    var line := Trim(raw, ShellSpace);
    var i := IndexOf(line, '=');
    if i < |line| {
      assert PlainSpaces(line[..i]) && PlainSpaces(line[i + 1..]);
      TrimAgrees(line[..i]);
      TrimAgrees(line[i + 1..]);
      NamesAgree(Trim(line[..i], ShellSpace));
    }
  }

  lemma {:induction false} WithoutReturnsIsNoLonger(s: string)
    ensures |WithoutReturns(s)| <= |s|
  {
    if s != "" {
      WithoutReturnsIsNoLonger(s[1..]);
    }
  }

  /** The two readers take the same value from a trimmed text exactly when it is not a raw string. */
  lemma UnquotesAgreeIff(v: string)
    requires Bare(v, GoSpace)
    ensures GoUnquote(v) == ShellUnquote(v) <==> !RawString(v)
  {
    TrimIsBare(v, GoSpace);
    assert Trim(v, GoSpace) == v;
    if RawString(v) {
      WithoutReturnsIsNoLonger(v[1..|v| - 1]);
      assert GoUnquote(v) == WithoutReturns(v[1..|v| - 1]);
      assert |GoUnquote(v)| < |ShellUnquote(v)|;
    }
  }

  // ------------------------------------------------------------------ a whole file

  datatype Pair = Pair(key: string, value: string)

  /** The last assignment among the lines, or the one before them. */
  function LastPair(lines: seq<string>, before: Option<Pair>): Option<Pair> {
    if lines == [] then before
    else
      var v := GoJudge(lines[0]);
      LastPair(lines[1..], if v.Assign? then Some(Pair(v.key, GoUnquote(v.value))) else before)
  }

  /** The loader's own variables. */
  const OWN := {"line", "key", "value"}

  /** What the loader's variable `key` holds after an assignment. */
  function KeyLeft(p: Pair): string {
    if p.key == "key" && p.value != "" then p.value else p.key
  }

  /** The shell after some lines, the map the parser has collected, and the last assignment. */
  ghost predicate Related(s: Shell, env: map<string, string>, last: Option<Pair>) {
    && s.exported == env.Keys
    && (forall k <- env :: k in s.vars && env[k] != "")
    && (forall k <- env :: k !in OWN ==> s.vars[k] == env[k])
    && (last.None? ==> env == map[])
    && (last.Some? ==>
          && "key" in s.vars && s.vars["key"] == KeyLeft(last.value)
          && "value" in s.vars && s.vars["value"] == last.value.value)
  }

  /** Both refuse, or both go on and stay related. */
  ghost predicate Same(parsed: Parsed, loaded: Loaded, last: Option<Pair>) {
    && (parsed.Rejected? <==> loaded.Stopped?)
    && (loaded.Running? ==> Related(loaded.shell, parsed.env, last))
  }

  ghost predicate NoRawStrings(lines: seq<string>) {
    forall line <- lines :: GoJudge(line).Assign? ==> !RawString(GoJudge(line).value)
  }

  lemma JudgedValueIsBare(raw: string)
    requires GoJudge(raw).Assign?
    ensures Bare(GoJudge(raw).value, GoSpace)
  {
    var line := Trim(raw, GoSpace);
    TrimIsBare(line[IndexOf(line, '=') + 1..], GoSpace);
  }

  /** An assignment made by both keeps them related. */
  lemma AssignKeepsRelated(s: Shell, line: string, p: Pair, env: map<string, string>, last: Option<Pair>)
    requires Related(s, env, last)
    ensures var t := s.Set("line", line).Set("key", p.key).Set("value", p.value);
      Related(if p.value == "" then t else t.Export(p.key, p.value),
              if p.value == "" then env else env[p.key := p.value], Some(p))
  {
  }

  lemma OneLine(raw: string, env: map<string, string>, last: Option<Pair>)
    ensures GoLines([raw], env) ==
      match GoJudge(raw)
      case Skip => Accepted(env)
      case Reject => Rejected
      case Assign(key, value) =>
        Accepted(if GoUnquote(value) == "" then env else env[key := GoUnquote(value)])
    ensures LastPair([raw], last) ==
      if GoJudge(raw).Assign? then Some(Pair(GoJudge(raw).key, GoUnquote(GoJudge(raw).value))) else last
  {
  }

  lemma LineAgrees(s: Shell, raw: string, env: map<string, string>, last: Option<Pair>)
    requires Related(s, env, last) && PlainSpaces(raw) && NoRawStrings([raw])
    ensures Same(GoLines([raw], env), ShellLine(s, raw), LastPair([raw], last))
  {
    JudgesAgree(raw);
    OneLine(raw, env, last);
    match GoJudge(raw)
    case Assign(key, value) =>
      assert !RawString(value) by {
        assert raw in [raw];
      }
      JudgedValueIsBare(raw);
      UnquotesAgreeIff(value);
      AssignKeepsRelated(s, Trim(raw, ShellSpace), Pair(key, GoUnquote(value)), env, last);
    case Skip =>
      SkipKeepsRelated(s, Trim(raw, ShellSpace), env, last);
    case Reject =>
  }

  lemma SkipKeepsRelated(s: Shell, line: string, env: map<string, string>, last: Option<Pair>)
    requires Related(s, env, last)
    ensures Related(s.Set("line", line), env, last)
  {
  }

  lemma FirstLine(raw: string, rest: seq<string>, env: map<string, string>, last: Option<Pair>)
    ensures GoLines([raw] + rest, env) ==
      if GoLines([raw], env).Rejected? then Rejected else GoLines(rest, GoLines([raw], env).env)
    ensures LastPair([raw] + rest, last) == LastPair(rest, LastPair([raw], last))
  {
  }

  /** The file's lines, each without its line break. */
  ghost predicate PlainLines(content: string) {
    forall line <- Lines(content) :: PlainSpaces(line)
  }

  /** The lines after the first. */
  function RestLines(content: string): seq<string> {
    var i := IndexOf(content, '\n');
    if i == |content| then [] else Lines(content[i + 1..])
  }

  lemma LinesSplit(content: string)
    ensures Lines(content) == [content[..IndexOf(content, '\n')]] + RestLines(content)
  {
    var i := IndexOf(content, '\n');
    assert i == |content| ==> content[..i] == content;
  }

  lemma ConditionsSplit(first: string, rest: seq<string>)
    ensures (forall l <- [first] + rest :: PlainSpaces(l)) <==> PlainSpaces(first) && forall l <- rest :: PlainSpaces(l)
    ensures NoRawStrings([first] + rest) <==> NoRawStrings([first]) && NoRawStrings(rest)
  {
  }

  lemma {:induction false} LoadAgrees(s: Shell, content: string, env: map<string, string>, last: Option<Pair>)
    requires Related(s, env, last) && PlainLines(content) && NoRawStrings(Lines(content))
    ensures Same(GoLines(Lines(content), env), ShellLoad(s, content), LastPair(Lines(content), last))
    ensures ShellLoad(s, content).Running? ==> LineIsEmpty(ShellLoad(s, content).shell)
    decreases |content|
  {
    var i := IndexOf(content, '\n');
    var line, rest := content[..i], RestLines(content);
    LinesSplit(content);
    if content == "" {
      EmptyLine(env, last);
      SkipKeepsRelated(s, "", env, last);
    } else {
      ConditionsSplit(line, rest);
      LineAgrees(s, line, env, last);
      FirstLine(line, rest, env, last);
      if ShellLine(s, line).Running? {
        RestAgrees(ShellLine(s, line).shell, content, GoLines([line], env).env, LastPair([line], last));
      }
    }
  }

  predicate LineIsEmpty(s: Shell) {
    "line" in s.vars && s.vars["line"] == ""
  }

  /** The part of the file after its first line. */
  function RestText(content: string): string {
    var i := IndexOf(content, '\n');
    if i == |content| then "" else content[i + 1..]
  }

  lemma {:induction false} RestAgrees(s: Shell, content: string, env: map<string, string>, last: Option<Pair>)
    requires content != "" && Related(s, env, last)
    requires (forall l <- RestLines(content) :: PlainSpaces(l)) && NoRawStrings(RestLines(content))
    ensures Same(GoLines(RestLines(content), env), ShellLoad(s, RestText(content)), LastPair(RestLines(content), last))
    ensures ShellLoad(s, RestText(content)).Running? ==> LineIsEmpty(ShellLoad(s, RestText(content)).shell)
    decreases |content|, 0
  {
    var i := IndexOf(content, '\n');
    if i == |content| {
      SkipKeepsRelated(s, "", env, last);
    } else {
      LoadAgrees(s, content[i + 1..], env, last);
    }
  }

  lemma EmptyLine(env: map<string, string>, last: Option<Pair>)
    ensures GoLines([""], env) == Accepted(env) && LastPair([""], last) == last
  {
  }

  /** None of the loader's own variables keeps another value than the file gave it. */
  predicate OwnNamesSafe(env: map<string, string>, last: Option<Pair>) {
    && "line" !in env
    && ("key" in env ==> last.Some? && env["key"] == KeyLeft(last.value))
    && ("value" in env ==> last.Some? && env["value"] == last.value.value)
  }

  /** On files with plain white space and no raw strings, the two readers refuse the same files; on
      the others they end with the same variables exactly when no name of the file is spoiled by the
      loader's own use of it. */
  lemma ReadersAgreeIff(vars: map<string, string>, content: string)
    requires PlainLines(content) && NoRawStrings(Lines(content))
    ensures GoLines(Lines(content), map[]).Rejected? <==> ShellLoad(Shell(vars, {}), content).Stopped?
    ensures ShellLoad(Shell(vars, {}), content).Running? ==>
      var env := GoLines(Lines(content), map[]).env;
      ShellLoad(Shell(vars, {}), content).shell.Env() == env <==> OwnNamesSafe(env, LastPair(Lines(content), None))
  {
    LoadAgrees(Shell(vars, {}), content, map[], None);
    if ShellLoad(Shell(vars, {}), content).Running? {
      EnvsAgreeIff(ShellLoad(Shell(vars, {}), content).shell, GoLines(Lines(content), map[]).env,
                   LastPair(Lines(content), None));
    }
  }

  lemma EnvsAgreeIff(s: Shell, env: map<string, string>, last: Option<Pair>)
    requires Related(s, env, last) && LineIsEmpty(s)
    ensures s.Env() == env <==> OwnNamesSafe(env, last)
  {
    assert forall k <- env :: k in s.Env() && s.Env()[k] == s.vars[k];
    if OwnNamesSafe(env, last) {
      assert s.Env() == env;
    } else if "line" in env {
      assert s.Env()["line"] != env["line"];
    } else if "key" in env && s.vars["key"] != env["key"] {
      assert s.Env()["key"] != env["key"];
    } else {
      assert "value" in env ==> s.Env()["value"] != env["value"];
    }
  }

  /** In particular they agree on every file that uses none of the three names. */
  lemma ReadersAgree(vars: map<string, string>, content: string)
    requires PlainLines(content) && NoRawStrings(Lines(content))
    requires ShellLoad(Shell(vars, {}), content).Running?
    requires GoLines(Lines(content), map[]).Accepted? ==> GoLines(Lines(content), map[]).env.Keys !! OWN
    ensures GoLines(Lines(content), map[]) == Accepted(ShellLoad(Shell(vars, {}), content).shell.Env())
  {
    ReadersAgreeIff(vars, content);
  }

  /** The verdict on a line that is a bare name, an equals sign and a bare value. */
  lemma JudgeOfAssignment(key: string, value: string)
    requires KeyMatches(key) && Bare(key, GoSpace) && value != "" && Bare(value, GoSpace)
    ensures GoJudge(key + "=" + value) == Assign(key, value)
  {
    var line := key + "=" + value;
    TrimIsBare(line, GoSpace);
    TrimIsBare(key, GoSpace);
    TrimIsBare(value, GoSpace);
    assert '=' !in key by {
      NamesAgree(key);
    }
    assert line[|key|] == '=';
    assert IndexOf(line, '=') == |key| by {
      assert line[..|key|] == key;
    }
    assert line[|key| + 1..] == value;
    NoSpaceInName(key, value);
  }

  lemma NoSpaceInName(key: string, value: string)
    requires KeyMatches(key)
    ensures var line := key + "=" + value;
      !Starts("export ", line) && !Starts("#", line) && !Starts(";", line)
  {
    var line := key + "=" + value;
    NamesAgree(key);
    assert line[0] == key[0];
    var word := "export ";
    assert word[6] == ' ' && !WordChar(' ');
    assert forall i :: 0 <= i < 7 ==> word[i] != '=';
    assert |line| > 6 && |key| <= 6 ==> line[..7][|key|] == '=';
    assert |key| > 6 ==> line[..7][6] == key[6];
    assert |key| > 6 ==> line[6] == key[6] && key[6] in key;
    assert |line| > 6 ==> line[..7] != word;
  }

  lemma SingleAssignment(content: string, key: string, value: string)
    requires Lines(content) == [content] && GoJudge(content) == Assign(key, value)
    requires value != "" && GoUnquote(value) == value
    ensures GoLines(Lines(content), map[]) == Accepted(map[key := value])
  {
  }

  /** Files that both accept and read differently: the loader empties its variable `line` at the end. */
  lemma {:induction false} NameLineIsSpoiled(vars: map<string, string>, value: string)
    requires value != "" && Bare(value, GoSpace) && PlainSpaces(value) && '\n' !in value && GoUnquote(value) == value
    ensures GoLines(Lines("line" + "=" + value), map[]) == Accepted(map["line" := value])
    ensures ShellLoad(Shell(vars, {}), "line" + "=" + value).Running?
    ensures ShellLoad(Shell(vars, {}), "line" + "=" + value).shell.Env() != map["line" := value]
  {
    assert KeyMatches("line");
    SoloFile("line", value);
    ReadersAgreeIff(vars, "line" + "=" + value);
  }

  /** A file with one assignment, as the parser reads it. */
  lemma SoloFile(key: string, value: string)
    requires KeyMatches(key) && PlainSpaces(value) && '\n' !in value
    requires value != "" && Bare(value, GoSpace) && GoUnquote(value) == value
    ensures var content := key + "=" + value;
      && PlainLines(content) && NoRawStrings(Lines(content))
      && GoLines(Lines(content), map[]) == Accepted(map[key := value])
  {
    var content := key + "=" + value;
    NamesAgree(key);
    assert forall c <- key :: WordChar(c) && !GoSpace(c);
    assert Bare(key, GoSpace) by {
      assert key[0] in key && key[|key| - 1] in key;
    }
    JudgeOfAssignment(key, value);
    SingleLine(content);
    SingleAssignment(content, key, value);
    assert PlainSpaces(content);
    NotRawString(value);
  }

  lemma NotRawString(value: string)
    requires Bare(value, GoSpace) && GoUnquote(value) == value && value != ""
    ensures !RawString(value)
  {
    TrimIsBare(value, GoSpace);
    UnquotesAgreeIff(value);
    assert Quoted(value, '`') ==> ShellUnquote(value) == value;
  }

  lemma SingleLine(content: string)
    requires '\n' !in content
    ensures Lines(content) == [content]
  {
  }
}
