/** envrender.py: the TUNSTRAP_* environment of a single-node session. A dict is a list of pairs in its own order. */
module EnvRender {
  import opened Wrappers
  import opened Text
  import opened TunnelManager
  import KubeTargets

  type Env = seq<(string, string)>

  datatype EnvError = NotOneNode | Collision(key: string) | NotMaterialized(name: string)

  datatype Suffix = Host | Port | Endpoint | Kubeconfig

  function SuffixText(suffix: Suffix): string {
    match suffix
    case Host => "_HOST"
    case Port => "_PORT"
    case Endpoint => "_ENDPOINT"
    case Kubeconfig => "_KUBECONFIG"
  }

  function KeyChar(c: char): (k: char)
    ensures 'A' <= k <= 'Z' || '0' <= k <= '9' || k == '_'
  {
    if 'a' <= c <= 'z' then (c as int - 'a' as int + 'A' as int) as char
    else if 'A' <= c <= 'Z' || '0' <= c <= '9' then c
    else '_'
  }

  /** `_key`: the name in upper case, with an underscore for all that is not a letter or a digit. */
  function Key(name: string): string {
    seq(|name|, i requires 0 <= i < |name| => KeyChar(name[i]))
  }

  predicate IsAlphanumeric(c: char) {
    'a' <= c <= 'z' || 'A' <= c <= 'Z' || '0' <= c <= '9'
  }

  /** The upper-case letter of a lower-case one. */
  predicate IsUpperOf(c: char, d: char) {
    'a' <= d <= 'z' && c as int == d as int - 32
  }

  /** Letters and digits stay, in upper case, and all else becomes an underscore. */
  lemma KeySays(name: string)
    ensures |Key(name)| == |name|
    ensures forall i | 0 <= i < |name| ::
      if 'a' <= name[i] <= 'z' then IsUpperOf(Key(name)[i], name[i])
      else if IsAlphanumeric(name[i]) then Key(name)[i] == name[i]
      else Key(name)[i] == '_'
    ensures Key("db") == "DB" && Key("a-b.9") == "A_B_9"
  {
    assert Key("db")[0] == 'D' && Key("db")[1] == 'B';
    assert Key("a-b.9") == ['A', '_', 'B', '_', '9'];
  }

  /** The same letter up to case, the same digit, or neither a letter nor a digit. */
  predicate SameInKeys(c: char, d: char) {
    c == d || IsUpperOf(c, d) || IsUpperOf(d, c) || (!IsAlphanumeric(c) && !IsAlphanumeric(d))
  }

  /** Names that are written alike in variables. */
  predicate SameKey(a: string, b: string) {
    |a| == |b| && forall i | 0 <= i < |a| :: SameInKeys(a[i], b[i])
  }

  lemma SameCharExactlyIf(c: char, d: char)
    ensures KeyChar(c) == KeyChar(d) <==> SameInKeys(c, d)
  {
  }

  lemma SameKeyExactlyIf(a: string, b: string)
    ensures SameKey(a, b) <==> Key(a) == Key(b)
  {
    forall c, d
      ensures KeyChar(c) == KeyChar(d) <==> SameInKeys(c, d)
    {
      SameCharExactlyIf(c, d);
    }
    if Key(a) == Key(b) {
      assert |Key(a)| == |a| && |Key(b)| == |b|;
      forall i | 0 <= i < |a|
        ensures SameInKeys(a[i], b[i])
      {
        assert Key(a)[i] == KeyChar(a[i]) && Key(b)[i] == KeyChar(b[i]);
      }
    }
  }

  function Variable(name: string, suffix: Suffix): string {
    "TUNSTRAP_" + Key(name) + SuffixText(suffix)
  }

  /** Two variables are the same exactly if the names have the same key and the suffixes agree. */
  lemma VariableIsInjective(a: string, s: Suffix, b: string, t: Suffix)
    ensures Variable(a, s) == Variable(b, t) <==> Key(a) == Key(b) && s == t
  {
    var v, w := Variable(a, s), Variable(b, t);
    if v == w {
      assert v[|v| - 1] == SuffixText(s)[|SuffixText(s)| - 1] && v[|v| - 2] == SuffixText(s)[|SuffixText(s)| - 2];
      assert w[|w| - 1] == SuffixText(t)[|SuffixText(t)| - 1] && w[|w| - 2] == SuffixText(t)[|SuffixText(t)| - 2];
      assert s == t;
      var n := |v| - |SuffixText(s)|;
      assert v[9..n] == Key(a) && w[9..n] == Key(b);
    }
  }

  lemma VariableIsNotFixed(name: string, suffix: Suffix)
    ensures Variable(name, suffix) !in ["TUNSTRAP_SESSION_DIR", "TUNSTRAP_PID", "KUBECONFIG"]
  {
    var v := Variable(name, suffix);
    assert v[0] == 'T';
    assert v[|v| - 1] == SuffixText(suffix)[|SuffixText(suffix)| - 1];
  }

  // ---------------------------------------------------------------- the dict

  function Keys(env: Env): set<string> {
    set i | 0 <= i < |env| :: env[i].0
  }

  lemma KeysOfSum(a: Env, b: Env)
    ensures Keys(a + b) == Keys(a) + Keys(b)
  {
    forall key | key in Keys(a) + Keys(b)
      ensures key in Keys(a + b)
    {
      if key in Keys(a) {
        var i :| 0 <= i < |a| && a[i].0 == key;
        assert (a + b)[i].0 == key;
      } else {
        var i :| 0 <= i < |b| && b[i].0 == key;
        assert (a + b)[|a| + i].0 == key;
      }
    }
  }

  /** No key twice. */
  ghost predicate IsDict(env: Env) {
    forall i, j | 0 <= i < j < |env| :: env[i].0 != env[j].0
  }

  /** The inner function `put`. */
  function Put(env: Env, key: string, value: string): (r: Result<Env, EnvError>)
    ensures r == if key in Keys(env) then Err(Collision(key)) else Ok(env + [(key, value)])
    ensures r.Ok? && IsDict(env) ==> IsDict(r.value)
  {
    if exists i :: 0 <= i < |env| && env[i].0 == key then Err(Collision(key))
    else
      assert forall i | 0 <= i < |env| :: env[i].0 in Keys(env);
      Ok(env + [(key, value)])
  }

  // ---------------------------------------------------------------- what the environment holds

  function Fixed(sessionDir: string, pid: nat): Env {
    [("TUNSTRAP_SESSION_DIR", sessionDir), ("TUNSTRAP_PID", Decimal(pid))]
  }

  function PortEntries(name: string, port: nat): Env {
    [(Variable(name, Host), "127.0.0.1"),
     (Variable(name, Port), Decimal(port)),
     (Variable(name, Endpoint), "127.0.0.1:" + Decimal(port))]
  }

  function KubeEntries(name: string, path: string, endpoint: string): Env {
    [(Variable(name, Kubeconfig), path), (Variable(name, Endpoint), endpoint)]
  }

  function PortEnv(ports: seq<(string, nat)>): (env: Env)
    ensures |env| == 3 * |ports|
  {
    if ports == [] then []
    else PortEnv(ports[..|ports| - 1]) + PortEntries(ports[|ports| - 1].0, ports[|ports| - 1].1)
  }

  type Targets = seq<(string, KubeTargets.KubeOutput)>

  predicate AllPlaced(targets: Targets) {
    forall i | 0 <= i < |targets| :: targets[i].1.path.Some?
  }

  function Paths(targets: Targets): (paths: seq<string>)
    requires AllPlaced(targets)
  {
    seq(|targets|, i requires 0 <= i < |targets| => targets[i].1.path.value)
  }

  function KubeEnv(targets: Targets): (env: Env)
    requires AllPlaced(targets)
    ensures |env| == 2 * |targets|
  {
    if targets == [] then []
    else
      var (name, output) := targets[|targets| - 1];
      KubeEnv(targets[..|targets| - 1]) + KubeEntries(name, output.path.value, output.endpoint)
  }

  function Join(parts: seq<string>, c: char): string {
    if parts == [] then []
    else if |parts| == 1 then parts[0]
    else parts[0] + [c] + Join(parts[1..], c)
  }

  /** All parts, one after the other, and a separator before each but the first. */
  lemma {:induction false} JoinSnoc(parts: seq<string>, last: string, c: char)
    ensures Join([last], c) == last
    ensures parts != [] ==> Join(parts + [last], c) == Join(parts, c) + [c] + last
  {
    if |parts| > 1 {
      JoinSnoc(parts[1..], last, c);
      assert (parts + [last])[1..] == parts[1..] + [last];
      assert parts[0] + [c] + (Join(parts[1..], c) + [c] + last) == parts[0] + [c] + Join(parts[1..], c) + [c] + last;
    } else if |parts| == 1 {
      assert (parts + [last])[1..] == [last];
    }
  }

  function Rendered(sessionDir: string, pid: nat, node: NodeOutput): (env: Env)
    requires AllPlaced(node.targets)
  {
    Fixed(sessionDir, pid) + PortEnv(node.ports) + KubeEnv(node.targets)
    + if node.targets == [] then [] else [("KUBECONFIG", Join(Paths(node.targets), ':'))]
  }

  // ---------------------------------------------------------------- which keys are taken

  predicate HasKey<T>(entries: seq<(string, T)>, key: string) {
    exists i :: 0 <= i < |entries| && Key(entries[i].0) == key
  }

  /** The names stay apart once they are keys. */
  predicate KeysDistinct<T>(entries: seq<(string, T)>) {
    forall i, j | 0 <= i < j < |entries| :: Key(entries[i].0) != Key(entries[j].0)
  }

  lemma HasKeySnoc<T>(entries: seq<(string, T)>, i: nat, key: string)
    requires i < |entries|
    ensures HasKey(entries[..i + 1], key) <==> HasKey(entries[..i], key) || Key(entries[i].0) == key
  {
  }

  lemma KeysDistinctSnoc<T>(entries: seq<(string, T)>, i: nat)
    requires i < |entries|
    ensures KeysDistinct(entries[..i + 1]) <==>
      KeysDistinct(entries[..i]) && !HasKey(entries[..i], Key(entries[i].0))
  {
  }

  lemma KeysDistinctPrefix<T>(entries: seq<(string, T)>, i: nat)
    requires i <= |entries| && KeysDistinct(entries)
    ensures KeysDistinct(entries[..i])
  {
  }

  lemma PortEntriesKeys(of: string, port: nat, name: string, suffix: Suffix)
    ensures Variable(name, suffix) in Keys(PortEntries(of, port)) <==> !suffix.Kubeconfig? && Key(name) == Key(of)
  {
    var entries := PortEntries(of, port);
    assert Keys(entries) == {entries[0].0, entries[1].0, entries[2].0};
    VariableIsInjective(name, suffix, of, Host);
    VariableIsInjective(name, suffix, of, Port);
    VariableIsInjective(name, suffix, of, Endpoint);
  }

  lemma KubeEntriesKeys(of: string, path: string, endpoint: string, name: string, suffix: Suffix)
    ensures Variable(name, suffix) in Keys(KubeEntries(of, path, endpoint)) <==>
      (suffix.Kubeconfig? || suffix.Endpoint?) && Key(name) == Key(of)
  {
    var entries := KubeEntries(of, path, endpoint);
    assert Keys(entries) == {entries[0].0, entries[1].0};
    VariableIsInjective(name, suffix, of, Kubeconfig);
    VariableIsInjective(name, suffix, of, Endpoint);
  }

  lemma {:induction false} PortEnvKeys(ports: seq<(string, nat)>, name: string, suffix: Suffix)
    ensures Variable(name, suffix) in Keys(PortEnv(ports)) <==> !suffix.Kubeconfig? && HasKey(ports, Key(name))
  {
    if ports != [] {
      var k := |ports| - 1;
      PortEnvKeys(ports[..k], name, suffix);
      KeysOfSum(PortEnv(ports[..k]), PortEntries(ports[k].0, ports[k].1));
      PortEntriesKeys(ports[k].0, ports[k].1, name, suffix);
      HasKeySnoc(ports, k, Key(name));
      assert ports[..k + 1] == ports;
    }
  }

  lemma {:induction false} KubeEnvKeys(targets: Targets, name: string, suffix: Suffix)
    requires AllPlaced(targets)
    ensures Variable(name, suffix) in Keys(KubeEnv(targets)) <==>
      (suffix.Kubeconfig? || suffix.Endpoint?) && HasKey(targets, Key(name))
  {
    if targets != [] {
      var k := |targets| - 1;
      var path, endpoint := targets[k].1.path.value, targets[k].1.endpoint;
      KubeEnvKeys(targets[..k], name, suffix);
      KeysOfSum(KubeEnv(targets[..k]), KubeEntries(targets[k].0, path, endpoint));
      KubeEntriesKeys(targets[k].0, path, endpoint, name, suffix);
      HasKeySnoc(targets, k, Key(name));
      assert targets[..k + 1] == targets;
    }
  }

  /** What the dict holds after all ports and these targets. */
  function SoFar(sessionDir: string, pid: nat, ports: seq<(string, nat)>, targets: Targets): Env
    requires AllPlaced(targets)
  {
    Fixed(sessionDir, pid) + PortEnv(ports) + KubeEnv(targets)
  }

  lemma SoFarKeys(
      sessionDir: string, pid: nat, ports: seq<(string, nat)>, targets: Targets, name: string, suffix: Suffix)
    requires AllPlaced(targets)
    ensures Variable(name, suffix) in Keys(SoFar(sessionDir, pid, ports, targets)) <==>
      match suffix
      case Host => HasKey(ports, Key(name))
      case Port => HasKey(ports, Key(name))
      case Endpoint => HasKey(ports, Key(name)) || HasKey(targets, Key(name))
      case Kubeconfig => HasKey(targets, Key(name))
  {
    var fixed := Fixed(sessionDir, pid);
    KeysOfSum(fixed + PortEnv(ports), KubeEnv(targets));
    KeysOfSum(fixed, PortEnv(ports));
    assert Keys(fixed) == {fixed[0].0, fixed[1].0};
    VariableIsNotFixed(name, suffix);
    PortEnvKeys(ports, name, suffix);
    KubeEnvKeys(targets, name, suffix);
  }

  // ---------------------------------------------------------------- when rendering succeeds

  predicate AreDisjoint(ports: seq<(string, nat)>, targets: Targets) {
    forall i | 0 <= i < |targets| :: !HasKey(ports, Key(targets[i].0))
  }

  /** No two names, of ports or of targets, are written alike, and every kubeconfig is on disk. */
  predicate IsRenderable(node: NodeOutput) {
    && (forall i, j | 0 <= i < j < |node.ports| :: !SameKey(node.ports[i].0, node.ports[j].0))
    && (forall i, j | 0 <= i < j < |node.targets| :: !SameKey(node.targets[i].0, node.targets[j].0))
    && (forall i, j | 0 <= i < |node.ports| && 0 <= j < |node.targets| ::
          !SameKey(node.ports[i].0, node.targets[j].0))
    && (forall i | 0 <= i < |node.targets| :: node.targets[i].1.path.Some?)
  }

  lemma DistinctExactlyIf<T>(entries: seq<(string, T)>)
    ensures KeysDistinct(entries) <==> forall i, j | 0 <= i < j < |entries| :: !SameKey(entries[i].0, entries[j].0)
  {
    forall i, j | 0 <= i < j < |entries|
      ensures SameKey(entries[i].0, entries[j].0) <==> Key(entries[i].0) == Key(entries[j].0)
    {
      SameKeyExactlyIf(entries[i].0, entries[j].0);
    }
  }

  lemma DisjointExactlyIf(ports: seq<(string, nat)>, targets: Targets)
    ensures AreDisjoint(ports, targets) <==>
      forall i, j | 0 <= i < |ports| && 0 <= j < |targets| :: !SameKey(ports[i].0, targets[j].0)
  {
    forall i, j | 0 <= i < |ports| && 0 <= j < |targets|
      ensures SameKey(ports[i].0, targets[j].0) <==> Key(ports[i].0) == Key(targets[j].0)
    {
      SameKeyExactlyIf(ports[i].0, targets[j].0);
    }
  }

  lemma RenderableExactlyIf(node: NodeOutput)
    ensures IsRenderable(node) <==>
      && KeysDistinct(node.ports) && KeysDistinct(node.targets)
      && AreDisjoint(node.ports, node.targets) && AllPlaced(node.targets)
  {
    DistinctExactlyIf(node.ports);
    DistinctExactlyIf(node.targets);
    DisjointExactlyIf(node.ports, node.targets);
  }

  /** `render_env` gets through: there is one node, and its output renders. */
  predicate Renders(connections: seq<(string, NodeOutput)>) {
    |connections| == 1 && IsRenderable(connections[0].1)
  }

  /** Two names of the node want this variable. */
  ghost predicate IsContested(node: NodeOutput, key: string) {
    || (exists i, j | 0 <= i < j < |node.ports| ::
          SameKey(node.ports[i].0, node.ports[j].0) && key == "TUNSTRAP_" + Key(node.ports[j].0) + "_HOST")
    || (exists i, j | 0 <= i < j < |node.targets| ::
          SameKey(node.targets[i].0, node.targets[j].0) && key == "TUNSTRAP_" + Key(node.targets[j].0) + "_KUBECONFIG")
    || (exists i, j | 0 <= i < |node.ports| && 0 <= j < |node.targets| ::
          SameKey(node.ports[i].0, node.targets[j].0) && key == "TUNSTRAP_" + Key(node.targets[j].0) + "_ENDPOINT")
  }

  lemma KeyIsShared<T>(entries: seq<(string, T)>, name: string) returns (i: nat)
    requires HasKey(entries, Key(name))
    ensures i < |entries| && SameKey(entries[i].0, name)
  {
    i :| 0 <= i < |entries| && Key(entries[i].0) == Key(name);
    SameKeyExactlyIf(entries[i].0, name);
  }

  lemma PortIsContested(node: NodeOutput, j: nat)
    requires j < |node.ports| && HasKey(node.ports[..j], Key(node.ports[j].0))
    ensures IsContested(node, Variable(node.ports[j].0, Host))
  {
    var i := KeyIsShared(node.ports[..j], node.ports[j].0);
    assert SameKey(node.ports[i].0, node.ports[j].0);
  }

  lemma TargetIsContested(node: NodeOutput, j: nat)
    requires j < |node.targets|
    ensures HasKey(node.targets[..j], Key(node.targets[j].0)) ==>
      IsContested(node, Variable(node.targets[j].0, Kubeconfig))
    ensures HasKey(node.ports, Key(node.targets[j].0)) ==> IsContested(node, Variable(node.targets[j].0, Endpoint))
  {
    if HasKey(node.targets[..j], Key(node.targets[j].0)) {
      var i := KeyIsShared(node.targets[..j], node.targets[j].0);
      assert SameKey(node.targets[i].0, node.targets[j].0);
    }
    if HasKey(node.ports, Key(node.targets[j].0)) {
      var i := KeyIsShared(node.ports, node.targets[j].0);
      assert SameKey(node.ports[i].0, node.targets[j].0);
    }
  }

  ghost predicate IsMissing(targets: Targets, name: string) {
    exists i | 0 <= i < |targets| :: targets[i].0 == name && targets[i].1.path.None?
  }

  lemma KeysOfOne(key: string, value: string)
    ensures Keys([(key, value)]) == {key}
  {
    assert [(key, value)][0].0 == key;
  }

  lemma PortFits(sessionDir: string, pid: nat, ports: seq<(string, nat)>, i: nat)
    requires i < |ports|
    ensures var (name, port) := ports[i];
      var env := SoFar(sessionDir, pid, ports[..i], []);
      var env1 := env + [(Variable(name, Host), "127.0.0.1")];
      var env2 := env1 + [(Variable(name, Port), Decimal(port))];
      && (Variable(name, Host) in Keys(env) <==> HasKey(ports[..i], Key(name)))
      && (!HasKey(ports[..i], Key(name)) ==>
            Variable(name, Port) !in Keys(env1) && Variable(name, Endpoint) !in Keys(env2))
      && SoFar(sessionDir, pid, ports[..i + 1], []) == env2 + [(Variable(name, Endpoint), "127.0.0.1:" + Decimal(port))]
  {
    var (name, port) := ports[i];
    var env := SoFar(sessionDir, pid, ports[..i], []);
    var one, two := [(Variable(name, Host), "127.0.0.1")], [(Variable(name, Port), Decimal(port))];
    SoFarKeys(sessionDir, pid, ports[..i], [], name, Host);
    SoFarKeys(sessionDir, pid, ports[..i], [], name, Port);
    SoFarKeys(sessionDir, pid, ports[..i], [], name, Endpoint);
    KeysOfSum(env, one);
    KeysOfSum(env + one, two);
    KeysOfOne(one[0].0, one[0].1);
    KeysOfOne(two[0].0, two[0].1);
    VariableIsInjective(name, Port, name, Host);
    VariableIsInjective(name, Endpoint, name, Host);
    VariableIsInjective(name, Endpoint, name, Port);
    assert ports[..i + 1][..i] == ports[..i];
  }

  method PutPort(env: Env, ports: seq<(string, nat)>, i: nat, ghost sessionDir: string, ghost pid: nat)
    returns (r: Result<Env, EnvError>)
    requires i < |ports| && env == SoFar(sessionDir, pid, ports[..i], []) && IsDict(env)
    ensures r.Ok? <==> !HasKey(ports[..i], Key(ports[i].0))
    ensures r.Ok? ==> r.value == SoFar(sessionDir, pid, ports[..i + 1], []) && IsDict(r.value)
    ensures r.Err? ==> r.error == Collision(Variable(ports[i].0, Host))
  {
    var (name, port) := ports[i];
    PortFits(sessionDir, pid, ports, i);
    r := Put(env, Variable(name, Host), "127.0.0.1");
    if r.Err? {
      return;
    }
    r := Put(r.value, Variable(name, Port), Decimal(port));
    r := Put(r.value, Variable(name, Endpoint), "127.0.0.1:" + Decimal(port));
  }

  lemma TargetFits(sessionDir: string, pid: nat, ports: seq<(string, nat)>, targets: Targets, i: nat)
    requires i < |targets| && AllPlaced(targets[..i])
    ensures var (name, output) := targets[i];
      var env := SoFar(sessionDir, pid, ports, targets[..i]);
      && (Variable(name, Kubeconfig) in Keys(env) <==> HasKey(targets[..i], Key(name)))
      && (output.path.Some? && !HasKey(targets[..i], Key(name)) ==>
            var env1 := env + [(Variable(name, Kubeconfig), output.path.value)];
            && (Variable(name, Endpoint) in Keys(env1) <==> HasKey(ports, Key(name)))
            && AllPlaced(targets[..i + 1])
            && SoFar(sessionDir, pid, ports, targets[..i + 1]) == env1 + [(Variable(name, Endpoint), output.endpoint)])
  {
    var (name, output) := targets[i];
    var env := SoFar(sessionDir, pid, ports, targets[..i]);
    SoFarKeys(sessionDir, pid, ports, targets[..i], name, Kubeconfig);
    SoFarKeys(sessionDir, pid, ports, targets[..i], name, Endpoint);
    if output.path.Some? {
      var one := [(Variable(name, Kubeconfig), output.path.value)];
      KeysOfSum(env, one);
      KeysOfOne(one[0].0, one[0].1);
      VariableIsInjective(name, Endpoint, name, Kubeconfig);
      assert targets[..i + 1][..i] == targets[..i];
    }
  }

  method PutTarget(
      env: Env, targets: Targets, i: nat, ghost sessionDir: string, ghost pid: nat, ghost ports: seq<(string, nat)>)
    returns (r: Result<Env, EnvError>)
    requires i < |targets| && AllPlaced(targets[..i])
    requires env == SoFar(sessionDir, pid, ports, targets[..i]) && IsDict(env)
    ensures r.Ok? <==>
      && targets[i].1.path.Some? && !HasKey(targets[..i], Key(targets[i].0))
      && !HasKey(ports, Key(targets[i].0))
    ensures r.Ok? ==>
      AllPlaced(targets[..i + 1]) && r.value == SoFar(sessionDir, pid, ports, targets[..i + 1]) && IsDict(r.value)
    ensures r.Err? ==>
      || (r.error == NotMaterialized(targets[i].0) && targets[i].1.path.None?)
      || (r.error == Collision(Variable(targets[i].0, Kubeconfig)) && HasKey(targets[..i], Key(targets[i].0)))
      || (r.error == Collision(Variable(targets[i].0, Endpoint)) && HasKey(ports, Key(targets[i].0)))
  {
    var (name, output) := targets[i];
    if output.path.None? {
      return Err(NotMaterialized(name));
    }
    TargetFits(sessionDir, pid, ports, targets, i);
    r := Put(env, Variable(name, Kubeconfig), output.path.value);
    if r.Err? {
      return;
    }
    r := Put(r.value, Variable(name, Endpoint), output.endpoint);
  }

  method PutPorts(sessionDir: string, pid: nat, ports: seq<(string, nat)>) returns (r: Result<Env, EnvError>)
    ensures r.Ok? <==> KeysDistinct(ports)
    ensures r.Ok? ==> r.value == SoFar(sessionDir, pid, ports, []) && IsDict(r.value)
    ensures r.Err? ==>
      exists j | 0 <= j < |ports| ::
        r.error == Collision(Variable(ports[j].0, Host)) && HasKey(ports[..j], Key(ports[j].0))
  {
    var env := Fixed(sessionDir, pid);
    for i := 0 to |ports|
      invariant env == SoFar(sessionDir, pid, ports[..i], []) && IsDict(env)
      invariant KeysDistinct(ports[..i])
    {
      r := PutPort(env, ports, i, sessionDir, pid);
      KeysDistinctSnoc(ports, i);
      if r.Err? {
        if KeysDistinct(ports) {
          KeysDistinctPrefix(ports, i + 1);
        }
        return;
      }
      env := r.value;
    }
    assert ports[..|ports|] == ports;
    r := Ok(env);
  }

  method PutTargets(
      start: Env, targets: Targets, ghost sessionDir: string, ghost pid: nat, ghost ports: seq<(string, nat)>)
    returns (r: Result<Env, EnvError>)
    requires start == SoFar(sessionDir, pid, ports, []) && IsDict(start)
    ensures r.Ok? <==> KeysDistinct(targets) && AreDisjoint(ports, targets) && AllPlaced(targets)
    ensures r.Ok? ==> r.value == SoFar(sessionDir, pid, ports, targets) && IsDict(r.value)
    ensures r.Err? ==>
      exists j | 0 <= j < |targets| ::
        || (r.error == NotMaterialized(targets[j].0) && targets[j].1.path.None?)
        || (r.error == Collision(Variable(targets[j].0, Kubeconfig)) && HasKey(targets[..j], Key(targets[j].0)))
        || (r.error == Collision(Variable(targets[j].0, Endpoint)) && HasKey(ports, Key(targets[j].0)))
  {
    var env := start;
    for i := 0 to |targets|
      invariant AllPlaced(targets[..i]) && env == SoFar(sessionDir, pid, ports, targets[..i]) && IsDict(env)
      invariant KeysDistinct(targets[..i]) && AreDisjoint(ports, targets[..i])
    {
      r := PutTarget(env, targets, i, sessionDir, pid, ports);
      KeysDistinctSnoc(targets, i);
      if r.Err? {
        if KeysDistinct(targets) {
          KeysDistinctPrefix(targets, i + 1);
        }
        return;
      }
      env := r.value;
    }
    assert targets[..|targets|] == targets;
    r := Ok(env);
  }

  /**
   The environment of a session with one node. It renders exactly if the names stay apart once they
   are keys and every kubeconfig is on disk; a collision names a variable that two names want.
   */
  method RenderEnv(sessionDir: string, pid: nat, connections: seq<(string, NodeOutput)>)
    returns (r: Result<Env, EnvError>)
    ensures r.Ok? <==> Renders(connections)
    ensures r.Ok? ==> r.value == Rendered(sessionDir, pid, connections[0].1) && IsDict(r.value)
    ensures r.Err? ==>
      match r.error
      case NotOneNode => |connections| != 1
      case Collision(key) => |connections| == 1 && IsContested(connections[0].1, key)
      case NotMaterialized(name) => |connections| == 1 && IsMissing(connections[0].1.targets, name)
  {
    if |connections| != 1 {
      return Err(NotOneNode);
    }
    var node := connections[0].1;
    RenderableExactlyIf(node);
    r := PutPorts(sessionDir, pid, node.ports);
    if r.Err? {
      ghost var j :| 0 <= j < |node.ports| && r.error == Collision(Variable(node.ports[j].0, Host))
                     && HasKey(node.ports[..j], Key(node.ports[j].0));
      PortIsContested(node, j);
      return;
    }
    r := PutTargets(r.value, node.targets, sessionDir, pid, node.ports);
    if r.Err? {
      forall j | 0 <= j < |node.targets|
        ensures HasKey(node.targets[..j], Key(node.targets[j].0)) ==>
          IsContested(node, Variable(node.targets[j].0, Kubeconfig))
        ensures HasKey(node.ports, Key(node.targets[j].0)) ==> IsContested(node, Variable(node.targets[j].0, Endpoint))
      {
        TargetIsContested(node, j);
      }
      return;
    }
    if node.targets != [] {
      KubeconfigIsFree(sessionDir, pid, node.ports, node.targets);
      r := Put(r.value, "KUBECONFIG", Join(Paths(node.targets), ':'));
    }
    assert r.value == Rendered(sessionDir, pid, node);
  }

  /** The last key never collides. */
  lemma KubeconfigIsFree(sessionDir: string, pid: nat, ports: seq<(string, nat)>, targets: Targets)
    requires AllPlaced(targets)
    ensures "KUBECONFIG" !in Keys(SoFar(sessionDir, pid, ports, targets))
  {
    PortEnvIsPrefixed(ports);
    KubeEnvIsPrefixed(targets);
    var fixed := Fixed(sessionDir, pid);
    assert fixed[0].0[0] == 'T' && fixed[1].0[0] == 'T' && "KUBECONFIG"[0] == 'K';
  }

  /** All keys begin with the T of TUNSTRAP. */
  predicate IsPrefixed(env: Env) {
    forall i | 0 <= i < |env| :: |env[i].0| > 0 && env[i].0[0] == 'T'
  }

  lemma {:induction false} PortEnvIsPrefixed(ports: seq<(string, nat)>)
    ensures IsPrefixed(PortEnv(ports))
  {
    if ports != [] {
      PortEnvIsPrefixed(ports[..|ports| - 1]);
    }
  }

  lemma {:induction false} KubeEnvIsPrefixed(targets: Targets)
    requires AllPlaced(targets)
    ensures IsPrefixed(KubeEnv(targets))
  {
    if targets != [] {
      KubeEnvIsPrefixed(targets[..|targets| - 1]);
    }
  }

  // ---------------------------------------------------------------- what a consumer finds

  lemma {:induction false} PortEnvHolds(ports: seq<(string, nat)>, i: nat)
    requires i < |ports|
    ensures forall entry | entry in PortEntries(ports[i].0, ports[i].1) :: entry in PortEnv(ports)
  {
    if i < |ports| - 1 {
      PortEnvHolds(ports[..|ports| - 1], i);
    }
  }

  lemma {:induction false} KubeEnvHolds(targets: Targets, i: nat)
    requires i < |targets| && AllPlaced(targets)
    ensures forall entry | entry in KubeEntries(targets[i].0, targets[i].1.path.value, targets[i].1.endpoint) ::
      entry in KubeEnv(targets)
  {
    if i < |targets| - 1 {
      KubeEnvHolds(targets[..|targets| - 1], i);
    }
  }

  /** The variables of a port. */
  predicate HoldsPort(env: Env, name: string, port: nat) {
    && ("TUNSTRAP_" + Key(name) + "_HOST", "127.0.0.1") in env
    && ("TUNSTRAP_" + Key(name) + "_PORT", Decimal(port)) in env
    && ("TUNSTRAP_" + Key(name) + "_ENDPOINT", "127.0.0.1:" + Decimal(port)) in env
  }

  /** The variables of a kube target. */
  predicate HoldsTarget(env: Env, name: string, output: KubeTargets.KubeOutput) {
    && output.path.Some?
    && ("TUNSTRAP_" + Key(name) + "_KUBECONFIG", output.path.value) in env
    && ("TUNSTRAP_" + Key(name) + "_ENDPOINT", output.endpoint) in env
  }

  lemma PortIsHeld(ports: seq<(string, nat)>, i: nat)
    requires i < |ports|
    ensures HoldsPort(PortEnv(ports), ports[i].0, ports[i].1)
  {
    PortEnvHolds(ports, i);
    var entries := PortEntries(ports[i].0, ports[i].1);
    assert entries[0] in entries && entries[1] in entries && entries[2] in entries;
  }

  lemma TargetIsHeld(targets: Targets, i: nat)
    requires i < |targets| && AllPlaced(targets)
    ensures HoldsTarget(KubeEnv(targets), targets[i].0, targets[i].1)
  {
    KubeEnvHolds(targets, i);
    var entries := KubeEntries(targets[i].0, targets[i].1.path.value, targets[i].1.endpoint);
    assert entries[0] in entries && entries[1] in entries;
  }

  /**
   The environment has three variables for each port and two for each kube target, with their
   values, next to the two fixed ones and KUBECONFIG, and nothing else.
   */
  lemma RenderedHoldsEverything(sessionDir: string, pid: nat, node: NodeOutput)
    requires AllPlaced(node.targets)
    ensures var env := Rendered(sessionDir, pid, node);
      && |env| == 2 + 3 * |node.ports| + 2 * |node.targets| + (if node.targets == [] then 0 else 1)
      && ("TUNSTRAP_SESSION_DIR", sessionDir) in env && ("TUNSTRAP_PID", Decimal(pid)) in env
      && (forall i | 0 <= i < |node.ports| :: HoldsPort(env, node.ports[i].0, node.ports[i].1))
      && (forall i | 0 <= i < |node.targets| :: HoldsTarget(env, node.targets[i].0, node.targets[i].1))
      && (node.targets != [] ==> ("KUBECONFIG", Join(Paths(node.targets), ':')) in env)
  {
    var fixed := Fixed(sessionDir, pid);
    assert fixed[0] in fixed && fixed[1] in fixed;
    forall i | 0 <= i < |node.ports|
      ensures HoldsPort(PortEnv(node.ports), node.ports[i].0, node.ports[i].1)
    {
      PortIsHeld(node.ports, i);
    }
    forall i | 0 <= i < |node.targets|
      ensures HoldsTarget(KubeEnv(node.targets), node.targets[i].0, node.targets[i].1)
    {
      TargetIsHeld(node.targets, i);
    }
  }

  /** value.split(c), as a reader of KUBECONFIG does it. */
  function Split(s: string, c: char): (parts: seq<string>)
    ensures parts != []
    decreases |s|
  {
    match Find(s, c)
    case None => [s]
    case Some(k) => [s[..k]] + Split(s[k + 1..], c)
  }

  lemma SplitNext(part: string, rest: string, c: char)
    requires c !in part
    ensures Split(part + [c] + rest, c) == [part] + Split(rest, c)
  {
    var s := part + [c] + rest;
    assert s[..|part|] == part && s[|part| + 1..] == rest;
    FindIs(s, c, |part|);
  }

  /** How often c occurs. */
  function Count(s: string, c: char): nat {
    if s == [] then 0 else Count(s[1..], c) + if s[0] == c then 1 else 0
  }

  lemma {:induction false} CountOfSum(s: string, t: string, c: char)
    ensures Count(s + t, c) == Count(s, c) + Count(t, c)
  {
    if s == [] {
      assert s + t == t;
    } else {
      CountOfSum(s[1..], t, c);
      assert (s + t)[1..] == s[1..] + t;
    }
  }

  lemma {:induction false} CountIsZero(s: string, c: char)
    ensures Count(s, c) == 0 <==> c !in s
  {
    if s != [] {
      CountIsZero(s[1..], c);
      assert s == [s[0]] + s[1..];
    }
  }

  lemma {:induction false} SplitCounts(s: string, c: char)
    ensures |Split(s, c)| == Count(s, c) + 1
    decreases |s|
  {
    match Find(s, c)
    case None => CountIsZero(s, c);
    case Some(k) =>
      SplitCounts(s[k + 1..], c);
      assert s == s[..k] + ([c] + s[k + 1..]);
      CountOfSum(s[..k], [c] + s[k + 1..], c);
      CountOfSum([c], s[k + 1..], c);
      assert Count([c], c) == 1 + Count([], c);
      CountIsZero(s[..k], c);
  }

  /** The separators and those within the parts. */
  lemma {:induction false} JoinCounts(parts: seq<string>, c: char)
    requires parts != []
    ensures Count(Join(parts, c), c) >= |parts| - 1
    ensures Count(Join(parts, c), c) == |parts| - 1 ==> forall i | 0 <= i < |parts| :: c !in parts[i]
  {
    if |parts| == 1 {
      CountIsZero(parts[0], c);
    } else {
      JoinCounts(parts[1..], c);
      CountOfSum(parts[0] + [c], Join(parts[1..], c), c);
      CountOfSum(parts[0], [c], c);
      assert Count([c], c) == 1 + Count([], c);
      CountIsZero(parts[0], c);
      assert forall i | 1 <= i < |parts| :: parts[i] == parts[1..][i - 1];
    }
  }

  lemma {:induction false} SplitInvertsJoin(parts: seq<string>, c: char)
    requires parts != [] && forall i | 0 <= i < |parts| :: c !in parts[i]
    ensures Split(Join(parts, c), c) == parts
  {
    if |parts| > 1 {
      SplitInvertsJoin(parts[1..], c);
      SplitNext(parts[0], Join(parts[1..], c), c);
    }
  }

  /** KUBECONFIG splits back to the kubeconfig paths exactly if no path contains a colon. */
  lemma KubeconfigSplitsBack(targets: Targets)
    requires targets != [] && AllPlaced(targets)
    ensures Split(Join(Paths(targets), ':'), ':') == Paths(targets) <==>
      forall i | 0 <= i < |targets| :: ':' !in targets[i].1.path.value
  {
    var paths := Paths(targets);
    if forall i | 0 <= i < |targets| :: ':' !in targets[i].1.path.value {
      SplitInvertsJoin(paths, ':');
    } else {
      SplitCounts(Join(paths, ':'), ':');
      JoinCounts(paths, ':');
      var i :| 0 <= i < |targets| && ':' in targets[i].1.path.value;
      assert paths[i] == targets[i].1.path.value;
    }
  }

  /** A kubeconfig in a directory with a colon reads back as two paths. */
  lemma ColonSplitsPath(output: KubeTargets.KubeOutput)
    ensures var targets := [("k", output.(path := Some("/a:b")))];
      && AllPlaced(targets) && Paths(targets) == ["/a:b"]
      && Split(Join(Paths(targets), ':'), ':') != Paths(targets)
  {
    var targets := [("k", output.(path := Some("/a:b")))];
    assert targets[0].1.path.value[2] == ':';
    KubeconfigSplitsBack(targets);
  }
}
