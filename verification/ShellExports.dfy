/**
 envrender.py: the printer of `export K='V'` lines, and a reader for what it prints: the shell's
 words with backslash and single quotes, as in sections 2.2.1 and 2.2.2 of the POSIX Shell Command
 Language. Characters that mean anything else to a shell are refused where they are not quoted.
 */
module ShellExports {
  import opened Wrappers
  import opened Text
  import opened TunnelManager
  import opened EnvRender

  // ---------------------------------------------------------------- the printer

  /** `_shell_single_quote`: every single quote leaves the quotes, comes escaped, and enters them again. */
  function Quote(value: string): string {
    if value == [] then []
    else (if value[0] == '\'' then "'\\''" else [value[0]]) + Quote(value[1..])
  }

  function ExportLine(key: string, value: string): string {
    "export " + key + "='" + Quote(value) + "'\n"
  }

  /** `format_exports`: the lines, joined by newlines, and a newline at the end. */
  function FormatExports(env: Env): string {
    JoinLines(env) + "\n"
  }

  function JoinLines(env: Env): string {
    if env == [] then []
    else
      var line := "export " + env[0].0 + "='" + Quote(env[0].1) + "'";
      if |env| == 1 then line else line + "\n" + JoinLines(env[1..])
  }

  // ---------------------------------------------------------------- the reader

  predicate IsNameChar(c: char) {
    'A' <= c <= 'Z' || 'a' <= c <= 'z' || '0' <= c <= '9' || c == '_'
  }

  predicate IsName(key: string) {
    key != [] && !('0' <= key[0] <= '9') && forall i | 0 <= i < |key| :: IsNameChar(key[i])
  }

  function Prepend(c: char, r: Option<(string, string)>): Option<(string, string)> {
    match r
    case None => None
    case Some((word, rest)) => Some(([c] + word, rest))
  }

  /** One word, without its quoting, and what follows it. */
  function ReadWord(s: string, quoted: bool): (r: Option<(string, string)>)
    ensures r.Some? ==> |r.value.1| <= |s|
  {
    if s == [] then if quoted then None else Some(("", ""))
    else if quoted then
      if s[0] == '\'' then ReadWord(s[1..], false) else Prepend(s[0], ReadWord(s[1..], true))
    else if s[0] == ' ' || s[0] == '\n' then Some(("", s))
    else if s[0] == '\'' then ReadWord(s[1..], true)
    else if s[0] == '\\' then
      if |s| == 1 then None
      else if s[1] == '\n' then ReadWord(s[2..], false)
      else Prepend(s[1], ReadWord(s[2..], false))
    else if IsNameChar(s[0]) || s[0] == '=' then Prepend(s[0], ReadWord(s[1..], false))
    else None
  }

  /** The word that begins s is w, and rest comes after it. */
  predicate Reads(s: string, quoted: bool, w: string, rest: string) {
    ReadWord(s, quoted) == Some((w, rest))
  }

  /** `export NAME=value` and the end of its line. */
  function ReadExport(s: string): (r: Option<((string, string), string)>)
    ensures r.Some? ==> |r.value.1| < |s|
  {
    match ReadWord(s, false)
    case None => None
    case Some((command, rest)) =>
      if command != "export" || rest == [] || rest[0] != ' ' then None
      else
        match ReadWord(rest[1..], false)
        case None => None
        case Some((word, end)) =>
          if end == [] || end[0] != '\n' then None
          else
            match Find(word, '=')
            case None => None
            case Some(k) => if IsName(word[..k]) then Some(((word[..k], word[k + 1..]), end[1..])) else None
  }

  /** What the shell exports when it evaluates s: nothing on an empty line, one variable on any other. */
  function ReadExports(s: string): Option<Env>
    decreases |s|
  {
    if s == [] then Some([])
    else if s[0] == '\n' then ReadExports(s[1..])
    else
      match ReadExport(s)
      case None => None
      case Some((entry, rest)) =>
        match ReadExports(rest)
        case None => None
        case Some(more) => Some([entry] + more)
  }

  // ---------------------------------------------------------------- reading what was printed

  lemma {:induction false} QuoteReadsBack(value: string, rest: string)
    requires rest != [] && rest[0] == '\n'
    ensures Reads(Quote(value) + "'" + rest, true, value, rest)
  {
    var s := Quote(value) + "'" + rest;
    if value == [] {
      assert s == "'" + rest;
      assert s[1..] == rest;
    } else {
      var t := Quote(value[1..]) + "'" + rest;
      QuoteReadsBack(value[1..], rest);
      assert value == [value[0]] + value[1..];
      if value[0] == '\'' {
        assert s == "'\\''" + t;
        EscapedQuoteReads(s, t);
      } else {
        assert s == [value[0]] + t;
        assert s[1..] == t;
      }
    }
  }

  lemma EscapedQuoteReads(s: string, t: string)
    requires s == "'\\''" + t
    ensures ReadWord(s, true) == Prepend('\'', ReadWord(t, true))
  {
    assert s[0] == '\'' && s[1..][0] == '\\' && s[1..][1] == '\'' && s[1..][2..][0] == '\'';
    assert s[1..][2..][1..] == t;
    assert ReadWord(s[1..][2..], false) == ReadWord(t, true);
    assert ReadWord(s[1..], false) == Prepend('\'', ReadWord(s[1..][2..], false));
  }

  /** Characters that stand for themselves. */
  lemma {:induction false} PlainReads(p: string, t: string, w: string, rest: string)
    requires forall i | 0 <= i < |p| :: IsNameChar(p[i]) || p[i] == '='
    requires Reads(t, false, w, rest)
    ensures Reads(p + t, false, p + w, rest)
  {
    if p == [] {
      assert p + t == t && p + w == w;
    } else {
      PlainReads(p[1..], t, w, rest);
      assert p + t == [p[0]] + (p[1..] + t);
      assert (p + t)[1..] == p[1..] + t;
      assert p + w == [p[0]] + (p[1..] + w);
    }
  }

  lemma CommandReads(rest: string)
    requires rest != [] && rest[0] == ' '
    ensures Reads("export" + rest, false, "export", rest)
  {
    assert Reads(rest, false, "", rest);
    PlainReads("export", rest, "", rest);
    assert "export" + "" == "export";
  }

  lemma AssignmentReads(key: string, value: string, rest: string)
    requires IsName(key) && rest != [] && rest[0] == '\n'
    ensures Reads(key + "='" + Quote(value) + "'" + rest, false, key + "=" + value, rest)
  {
    var quoted := Quote(value) + "'" + rest;
    QuoteReadsBack(value, rest);
    assert ("'" + quoted)[1..] == quoted;
    assert Reads("'" + quoted, false, value, rest);
    PlainReads(key + "=", "'" + quoted, value, rest);
    Regrouped(key, Quote(value), rest);
  }

  lemma Regrouped(key: string, body: string, rest: string)
    ensures key + "='" + body + "'" + rest == (key + "=") + ("'" + (body + "'" + rest))
  {
  }

  lemma ExportReads(key: string, value: string, rest: string)
    requires IsName(key)
    ensures ReadExport(ExportLine(key, value) + rest) == Some(((key, value), rest))
  {
    var s := ExportLine(key, value) + rest;
    var assignment := key + "='" + Quote(value) + "'" + ("\n" + rest);
    assert s == "export" + (" " + assignment);
    CommandReads(" " + assignment);
    assert (" " + assignment)[1..] == assignment;
    AssignmentReads(key, value, "\n" + rest);
    var word := key + "=" + value;
    assert word[..|key|] == key && word[|key| + 1..] == value;
    FindIs(word, '=', |key|);
    assert ("\n" + rest)[1..] == rest;
  }

  /** Every line ends with a newline, the last one with format_exports's own. */
  lemma LinesInOrder(env: Env)
    ensures env == [] ==> FormatExports(env) == "\n"
    ensures env != [] ==>
      FormatExports(env) == ExportLine(env[0].0, env[0].1) + (if |env| == 1 then "" else FormatExports(env[1..]))
  {
  }

  /** Evaluating the printed lines exports exactly the environment, whatever characters its values hold. */
  lemma {:induction false} ExportsReadBack(env: Env)
    requires forall i | 0 <= i < |env| :: IsName(env[i].0)
    ensures ReadExports(FormatExports(env)) == Some(env)
  {
    LinesInOrder(env);
    if env == [] {
      assert FormatExports(env)[1..] == "";
    } else {
      var s, rest := FormatExports(env), if |env| == 1 then "" else FormatExports(env[1..]);
      ExportReads(env[0].0, env[0].1, rest);
      assert s[0] == 'e';
      if |env| == 1 {
        assert ReadExports(rest) == Some([]);
      } else {
        ExportsReadBack(env[1..]);
      }
      assert env == [env[0]] + env[1..];
    }
  }

  // ---------------------------------------------------------------- the rendered environment

  predicate AllNames(env: Env) {
    forall i | 0 <= i < |env| :: IsName(env[i].0)
  }

  lemma VariableIsName(name: string, suffix: Suffix)
    ensures IsName(Variable(name, suffix))
  {
    assert forall i | 0 <= i < |Key(name)| :: IsNameChar(Key(name)[i]);
    assert forall i | 0 <= i < |SuffixText(suffix)| :: IsNameChar(SuffixText(suffix)[i]);
    NameOfParts("TUNSTRAP_", Key(name), SuffixText(suffix));
  }

  lemma NameOfParts(a: string, b: string, c: string)
    requires IsName(a)
    requires (forall i | 0 <= i < |b| :: IsNameChar(b[i])) && (forall i | 0 <= i < |c| :: IsNameChar(c[i]))
    ensures IsName(a + b + c)
  {
  }

  lemma {:induction false} PortEnvIsNamed(ports: seq<(string, nat)>)
    ensures AllNames(PortEnv(ports))
  {
    if ports != [] {
      var (name, port) := ports[|ports| - 1];
      PortEnvIsNamed(ports[..|ports| - 1]);
      VariableIsName(name, Host);
      VariableIsName(name, Port);
      VariableIsName(name, Endpoint);
    }
  }

  lemma {:induction false} KubeEnvIsNamed(targets: Targets)
    requires AllPlaced(targets)
    ensures AllNames(KubeEnv(targets))
  {
    if targets != [] {
      var (name, output) := targets[|targets| - 1];
      KubeEnvIsNamed(targets[..|targets| - 1]);
      VariableIsName(name, Kubeconfig);
      VariableIsName(name, Endpoint);
    }
  }

  /** The exports of a rendered session read back as the rendered environment. */
  lemma RenderedExportsReadBack(sessionDir: string, pid: nat, node: NodeOutput)
    requires AllPlaced(node.targets)
    ensures var env := Rendered(sessionDir, pid, node); ReadExports(FormatExports(env)) == Some(env)
  {
    PortEnvIsNamed(node.ports);
    KubeEnvIsNamed(node.targets);
    FixedIsNamed(sessionDir, pid);
    var kubeconfig := if node.targets == [] then [] else [("KUBECONFIG", Join(Paths(node.targets), ':'))];
    assert AllNames(kubeconfig);
    NamesOfSum(Fixed(sessionDir, pid), PortEnv(node.ports), KubeEnv(node.targets), kubeconfig);
    ExportsReadBack(Rendered(sessionDir, pid, node));
  }

  lemma FixedIsNamed(sessionDir: string, pid: nat)
    ensures AllNames(Fixed(sessionDir, pid))
  {
  }

  lemma NamesOfSum(a: Env, b: Env, c: Env, d: Env)
    requires AllNames(a) && AllNames(b) && AllNames(c) && AllNames(d)
    ensures AllNames(a + b + c + d)
  {
  }
}
