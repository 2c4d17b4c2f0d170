/** The two readers of a DNS credential file: the preflight parser and the shell loader used when
    certificates are issued. */
module EnvFile {
  import opened Options
  import opened Text

  /** The two characters the loader trims. */
  predicate ShellSpace(c: char) {
    c == ' ' || c == '\t'
  }

  /** The first position of `c`, or the length. */
  function IndexOf(s: string, c: char): (i: nat)
    ensures i <= |s| && c !in s[..i] && (i < |s| ==> s[i] == c)
  {
    if s == "" || s[0] == c then 0 else 1 + IndexOf(s[1..], c)
  }

  predicate Starts(prefix: string, s: string) {
    prefix <= s
  }

  /** What a line asks for. */
  datatype Verdict = Skip | Reject | Assign(key: string, value: string)

  // ------------------------------------------------------------------ the preflight parser

  predicate WordChar(c: char) {
    'A' <= c <= 'Z' || 'a' <= c <= 'z' || '0' <= c <= '9' || c == '_'
  }

  /** A letter or underscore, then letters, digits and underscores. */
  predicate KeyMatches(key: string) {
    && key != "" && WordChar(key[0]) && !('0' <= key[0] <= '9')
    && forall c <- key[1..] :: WordChar(c)
  }

  function GoJudge(raw: string): Verdict {
    var line := Trim(raw, GoSpace);
    if line == "" || Starts("#", line) || Starts(";", line) then Skip
    else if Starts("export ", line) then Reject
    else
      var i := IndexOf(line, '=');
      if i == |line| then Skip
      else
        var key := Trim(line[..i], GoSpace);
        if !KeyMatches(key) then Reject else Assign(key, Trim(line[i + 1..], GoSpace))
  }

  predicate Quoted(v: string, quote: char) {
    |v| >= 2 && v[0] == quote && v[|v| - 1] == quote
  }

  /** `strconv.Unquote` on what the quote check lets through: only a raw string can still succeed;
      carriage returns in it are dropped. */
  predicate RawString(v: string) {
    Quoted(v, '`') && '`' !in v[1..|v| - 1]
  }

  function WithoutReturns(s: string): string {
    if s == "" then "" else (if s[0] == '\r' then "" else [s[0]]) + WithoutReturns(s[1..])
  }

  function GoUnquote(value: string): string {
    var v := Trim(value, GoSpace);
    if Quoted(v, '"') || Quoted(v, '\'') then v[1..|v| - 1]
    else if RawString(v) then WithoutReturns(v[1..|v| - 1])
    else v
  }

  function Lines(content: string): seq<string> {
    var i := IndexOf(content, '\n');
    if i == |content| then [content] else [content[..i]] + Lines(content[i + 1..])
  }

  datatype Parsed = Accepted(env: map<string, string>) | Rejected

  function GoLines(lines: seq<string>, env: map<string, string>): Parsed {
    if lines == [] then Accepted(env)
    else
      match GoJudge(lines[0])
      case Skip => GoLines(lines[1..], env)
      case Reject => Rejected
      case Assign(key, value) =>
        var v := GoUnquote(value);
        GoLines(lines[1..], if v == "" then env else env[key := v])
  }

  method ParseDnsEnvFile(content: string) returns (r: Parsed)
    ensures r == GoLines(Lines(content), map[])
  {
    var env: map<string, string> := map[];
    var lines := Lines(content);
    for n := 0 to |lines|
      invariant GoLines(lines, map[]) == GoLines(lines[n..], env)
    {
      assert lines[n..][1..] == lines[n + 1..];
      var line := Trim(lines[n], GoSpace);
      if line == "" || Starts("#", line) || Starts(";", line) {
        continue;
      }
      if Starts("export ", line) {
        return Rejected;
      }
      var i := IndexOf(line, '=');
      if i == |line| {
        continue;
      }
      var key := Trim(line[..i], GoSpace);
      var value := Trim(line[i + 1..], GoSpace);
      if !KeyMatches(key) {
        return Rejected;
      }
      value := GoUnquote(value);
      if key == "" || value == "" {
        continue;
      }
      env := env[key := value];
    }
    return Accepted(env);
  }

  // ------------------------------------------------------------------ the shell loader

  /** The shell: all its variables and the names of those that are exported. */
  datatype Shell = Shell(vars: map<string, string>, exported: set<string>)
  {
    function Set(name: string, value: string): Shell {
      Shell(vars[name := value], exported)
    }

    function Export(name: string, value: string): Shell {
      Shell(vars[name := value], exported + {name})
    }

    function Env(): map<string, string> {
      map name | name in exported && name in vars :: vars[name]
    }
  }

  datatype Loaded = Running(shell: Shell) | Stopped

  /** The `case` pattern for names that are refused. */
  predicate BadName(key: string) {
    key == "" || '0' <= key[0] <= '9' || exists c <- key :: !WordChar(c)
  }

  function ShellJudge(line: string): Verdict {
    if line == "" || Starts("#", line) || Starts(";", line) then Skip
    else if Starts("export ", line) then Reject
    else
      var i := IndexOf(line, '=');
      if i == |line| then Skip
      else
        var key := Trim(line[..i], ShellSpace);
        if BadName(key) then Reject else Assign(key, Trim(line[i + 1..], ShellSpace))
  }

  function ShellUnquote(v: string): string {
    if Quoted(v, '"') || Quoted(v, '\'') then v[1..|v| - 1] else v
  }

  /** One turn of the loop: `line`, `key` and `value` are variables of the same shell the file's own
      variables are exported to. */
  function ShellLine(shell: Shell, raw: string): Loaded {
    var line := Trim(raw, ShellSpace);
    var s := shell.Set("line", line);
    match ShellJudge(line)
    case Skip => Running(s)
    case Reject => Stopped
    case Assign(key, value) =>
      var v := ShellUnquote(value);
      var t := s.Set("key", key).Set("value", v);
      Running(if v == "" then t else t.Export(key, v))
  }

  /** The loop until the end of the file, where a last `read` finds nothing. */
  function ShellLoad(shell: Shell, content: string): Loaded
    decreases |content|
  {
    if content == "" then Running(shell.Set("line", ""))
    else
      var i := IndexOf(content, '\n');
      match ShellLine(shell, content[..i])
      case Stopped => Stopped
      case Running(s) => ShellLoad(s, if i == |content| then "" else content[i + 1..])
  }

  method TrimValue(text: string) returns (value: string)
    ensures value == Trim(text, ShellSpace)
  {
    value := text;
    while value != "" && ShellSpace(value[0])
      invariant TrimLeft(value, ShellSpace) == TrimLeft(text, ShellSpace)
      decreases |value|
    {
      value := value[1..];
    }
    while value != "" && ShellSpace(value[|value| - 1])
      invariant TrimRight(value, ShellSpace) == Trim(text, ShellSpace)
      decreases |value|
    {
      value := value[..|value| - 1];
    }
  }

  lemma SetTwice(s: Shell, name: string, v: string, w: string)
    ensures s.Set(name, v).Set(name, w) == s.Set(name, w)
  {
  }

  method LoadLine(shell: Shell, raw: string) returns (r: Loaded)
    ensures r == ShellLine(shell, raw)
  {
    var line := TrimValue(raw);
    var s := shell.Set("line", line);
    if line == "" || Starts("#", line) || Starts(";", line) {
      return Running(s);
    }
    if Starts("export ", line) {
      return Stopped;
    }
    var cut := IndexOf(line, '=');
    if cut == |line| {
      return Running(s);
    }
    var key := TrimValue(line[..cut]);
    var value := TrimValue(line[cut + 1..]);
    s := s.Set("key", key);
    if BadName(key) {
      return Stopped;
    }
    ghost var before := s;
    s := s.Set("value", value);
    if Quoted(value, '"') || Quoted(value, '\'') {
      SetTwice(before, "value", value, value[1..|value| - 1]);
      value := value[1..|value| - 1];
      s := s.Set("value", value);
    }
    if value == "" {
      return Running(s);
    }
    return Running(s.Export(key, value));
  }

  method LoadEnvFile(shell: Shell, content: string) returns (r: Loaded)
    ensures r == ShellLoad(shell, content)
  {
    var s, rest := shell, content;
    while true
      invariant ShellLoad(s, rest) == ShellLoad(shell, content)
      decreases |rest|
    {
      var i := IndexOf(rest, '\n');
      var read, line := i < |rest|, rest[..i];
      if !read && line == "" {
        return Running(s.Set("line", ""));
      }
      var turn := LoadLine(s, line);
      if turn.Stopped? {
        return Stopped;
      }
      s, rest := turn.shell, if read then rest[i + 1..] else "";
    }
  }
}
