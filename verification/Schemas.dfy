/**
 schemas.py: what the input models accept, and that a validated input survives the trip to the
 worker, where its dump is validated again. A JSON object is what a model sees of it: its declared
 fields, each present or not, and whether there are any others. Which other values pydantic turns
 into an integer or a boolean is a parameter.
 */
module Schemas {
  import opened Wrappers
  import opened Endpoints
  import Nodes
  import SessionProtocol
  import SessionDirectory

  datatype Value = Null | Bool(b: bool) | Number(n: int) | Text(s: string) | Other

  /** pydantic's conversions; integers and booleans themselves stay what they are. */
  datatype Coercion = Coercion(toInt: Value -> Option<int>, toBool: Value -> Option<bool>, read: Reader)

  ghost predicate IsFaithful(c: Coercion) {
    (forall n: int :: c.toInt(Number(n)) == Some(n)) && (forall b: bool :: c.toBool(Bool(b)) == Some(b))
  }

  /** A dict-valued field: absent, null, something else, or the entries in their order. */
  datatype Dict<T> = Absent | Nil | NotADict | Dict(entries: seq<(string, T)>)

  // ---------------------------------------------------------------- raw input

  datatype RawTarget =
    | Parsed(target: RemoteTarget)
    | Fields(host: Option<Value>, port: Option<Value>, extra: bool)
    | Scalar(value: Value)

  datatype RawFile = RawFile(path: Option<Value>, required: Option<Value>, extra: bool) | NotAFile

  datatype RawKube =
    | RawKube(
        path: Option<Value>, tlsServerName: Option<Value>, insecure: Option<Value>, required: Option<Value>,
        extra: bool)
    | NotAKube

  datatype RawOptions = RawOptions(compression: Option<Value>, timeout: Option<Value>, extra: bool) | NotOptions

  datatype RawNode =
    | RawNode(
        host: Option<Value>, port: Option<Value>, user: Option<Value>,
        key: Option<Value>, password: Option<Value>, passphrase: Option<Value>,
        targets: Dict<RawTarget>, options: Option<RawOptions>, required: Option<Value>,
        files: Dict<RawFile>, kubes: Dict<RawKube>, extra: bool)
    | NotANode

  datatype RawDaemon =
    | RawDaemon(
        logFile: Option<Value>, grace: Option<Value>, idle: Option<Value>, materialize: Option<Value>, extra: bool)
    | NotADaemon

  datatype RawInput = RawInput(nodes: Dict<RawNode>, daemon: Option<RawDaemon>, extra: bool)

  // ---------------------------------------------------------------- validated input

  datatype RemoteTarget = RemoteTarget(host: string, port: int)

  datatype FileSpec = FileSpec(path: string, required: bool)

  datatype KubeTarget = KubeTarget(path: string, tlsServerName: Option<string>, insecure: bool, required: bool)

  datatype Options = Options(compression: bool, timeout: int)

  datatype Node = Node(
    host: string, port: int, user: string,
    key: Option<string>, password: Option<string>, passphrase: Option<string>,
    targets: seq<(string, RemoteTarget)>, options: Options, required: bool,
    files: Option<seq<(string, FileSpec)>>, kubes: Option<seq<(string, KubeTarget)>>)

  datatype Daemon = Daemon(logFile: Option<string>, grace: int, idle: Option<int>, materialize: bool)

  datatype Input = Input(nodes: seq<(string, Node)>, daemon: Daemon)

  // ---------------------------------------------------------------- scalar fields

  function RequiredText(v: Option<Value>): Option<string> {
    if v.Some? && v.value.Text? then Some(v.value.s) else None
  }

  function OptionalText(v: Option<Value>): Option<Option<string>> {
    if v.None? || v.value.Null? then Some(None)
    else if v.value.Text? then Some(Some(v.value.s))
    else None
  }

  function IntOr(c: Coercion, v: Option<Value>, default: int): Option<int> {
    if v.None? then Some(default) else c.toInt(v.value)
  }

  function BoolOr(c: Coercion, v: Option<Value>, default: bool): Option<bool> {
    if v.None? then Some(default) else c.toBool(v.value)
  }

  function OptionalInt(c: Coercion, v: Option<Value>): Option<Option<int>> {
    if v.None? || v.value.Null? then Some(None)
    else
      var n :- c.toInt(v.value);
      Some(Some(n))
  }

  // ---------------------------------------------------------------- keys

  predicate IsLetter(ch: char) {
    'a' <= ch <= 'z' || 'A' <= ch <= 'Z' || ch == '_'
  }

  predicate IsKeyChar(ch: char) {
    IsLetter(ch) || '0' <= ch <= '9' || ch == '-'
  }

  predicate IsIdentifier(name: string) {
    name != [] && IsLetter(name[0]) && forall i | 1 <= i < |name| :: IsKeyChar(name[i])
  }

  /** The key pattern as re.match reads it: its `$` also matches before a newline at the very end. */
  predicate MatchesKeyPattern(name: string) {
    || IsIdentifier(name)
    || (name != [] && name[|name| - 1] == '\n' && IsIdentifier(name[..|name| - 1]))
  }

  /** `_validate_identifier_key` accepts the name. */
  predicate IsAcceptedKey(name: string) {
    |name| <= 64 && MatchesKeyPattern(name)
  }

  /**
   The error message promises identifiers of at most 64 characters. The accepted keys are those,
   and besides them the ones that a single newline turns into something else.
   */
  lemma KeysAreIdentifiersExactlyIf(name: string)
    requires IsAcceptedKey(name)
    ensures IsIdentifier(name) <==> '\n' !in name
  {
  }

  /** The accepted keys: at most 64 characters, an identifier or one followed by a newline. */
  lemma AcceptedExactlyIf(name: string)
    ensures IsAcceptedKey(name) <==>
      |name| <= 64 && exists core: string :: (name == core || name == core + "\n") && IsIdentifier(core)
  {
    if name != [] && name[|name| - 1] == '\n' {
      assert name == name[..|name| - 1] + "\n";
    }
    if core: string :| (name == core || name == core + "\n") && IsIdentifier(core) {
      assert name == core + "\n" ==> name[..|name| - 1] == core;
    }
  }

  lemma NewlineKeyIsAccepted()
    ensures IsAcceptedKey("edge\n") && !IsIdentifier("edge\n")
  {
    assert "edge\n"[..4] == "edge";
    assert "edge\n"[4] == '\n';
  }

  lemma AcceptedKeysArePlain(name: string)
    requires IsAcceptedKey(name)
    ensures '/' !in name && '\\' !in name && ':' !in name && '.' !in name
  {
  }

  /** Accepted keys never make a name that the session directory refuses, nor that of the identity file. */
  lemma MaterialNamesAreSafe(node: string, target: string)
    requires IsAcceptedKey(node) && IsAcceptedKey(target)
    ensures SessionDirectory.IsSafeName(Nodes.MaterialName(node, target))
    ensures Nodes.MaterialName(node, target) != SessionProtocol.DAEMON_PID
  {
    AcceptedKeysArePlain(node);
    AcceptedKeysArePlain(target);
    assert '.' !in Nodes.MaterialName(node, target) && SessionProtocol.DAEMON_PID[6] == '.';
  }

  /** Two targets share a file exactly if one node's name is the other's with part of a target's name. */
  lemma MaterialNamesCollideExactlyIf(node: string, target: string, node': string, target': string)
    requires |node| <= |node'|
    ensures Nodes.MaterialName(node, target) == Nodes.MaterialName(node', target') <==>
      || (node == node' && target == target')
      || (|node| < |node'| && node + "-" <= node' && target == node'[|node| + 1..] + "-" + target')
  {
    var a, b := Nodes.MaterialName(node, target), Nodes.MaterialName(node', target');
    if a == b {
      assert node == a[..|node|] && a[..|node|] == b[..|node|] && b[..|node|] == node'[..|node|];
      assert target == a[|node| + 1..] && a[|node| + 1..] == b[|node| + 1..];
      if |node| < |node'| {
        assert node'[|node|] == b[|node|] == a[|node|] == '-';
        assert b[|node| + 1..] == node'[|node| + 1..] + "-" + target';
      } else {
        assert target' == b[|node| + 1..];
      }
    }
  }

  /** Two targets of two nodes under one file name, with keys that are all accepted. */
  lemma MaterialNamesCollide()
    ensures IsAcceptedKey("a") && IsAcceptedKey("b-c") && IsAcceptedKey("a-b") && IsAcceptedKey("c")
    ensures Nodes.MaterialName("a", "b-c") == Nodes.MaterialName("a-b", "c")
  {
  }

  // ---------------------------------------------------------------- remote targets

  predicate IsTarget(target: RemoteTarget) {
    1 <= |target.host| <= 255 && 1 <= target.port <= 65535
  }

  /** One value of remote_targets: a parsed target, its dict form, or "host:port". */
  function ValidateTarget(c: Coercion, raw: RawTarget): (r: Option<RemoteTarget>)
    ensures r.Some? && !raw.Parsed? ==> IsTarget(r.value)
  {
    match raw
    case Parsed(target) => Some(target)
    case Fields(host, port, extra) =>
      if extra || port.None? then None
      else
        var h :- RequiredText(host);
        var p :- c.toInt(port.value);
        if IsTarget(RemoteTarget(h, p)) then Some(RemoteTarget(h, p)) else None
    case Scalar(value) =>
      if !value.Text? then None
      else
        match ParseHostPort(c.read, value.s)
        case Err(_) => None
        case Ok((host, port)) => if IsTarget(RemoteTarget(host, port)) then Some(RemoteTarget(host, port)) else None
  }

  /** The entries of the dict, all of them good, or nothing. */
  function ValidateTargets(c: Coercion, entries: seq<(string, RawTarget)>): Option<seq<(string, RemoteTarget)>> {
    if entries == [] then Some([])
    else
      var k := |entries| - 1;
      var front :- ValidateTargets(c, entries[..k]);
      if !IsAcceptedKey(entries[k].0) then None
      else
        var target :- ValidateTarget(c, entries[k].1);
        Some(front + [(entries[k].0, target)])
  }

  lemma {:induction false} FailureIsFinal(c: Coercion, entries: seq<(string, RawTarget)>, n: nat)
    requires n <= |entries| && ValidateTargets(c, entries[..n]).None?
    ensures ValidateTargets(c, entries).None?
    decreases |entries|
  {
    if n < |entries| {
      assert entries[..|entries| - 1][..n] == entries[..n];
      FailureIsFinal(c, entries[..|entries| - 1], n);
    } else {
      assert entries[..n] == entries;
    }
  }

  /** `_validate_remote_targets` */
  method ValidateRemoteTargets(c: Coercion, value: Dict<RawTarget>) returns (r: Option<seq<(string, RemoteTarget)>>)
    ensures r == TargetsOf(c, value)
  {
    if value.Absent? || value.Nil? {
      return Some([]);
    }
    if !value.Dict? || |value.entries| > 16 {
      return None;
    }
    var parsed: seq<(string, RemoteTarget)> := [];
    for i := 0 to |value.entries|
      invariant ValidateTargets(c, value.entries[..i]) == Some(parsed)
    {
      var (handle, raw) := value.entries[i];
      assert value.entries[..i + 1][..i] == value.entries[..i];
      var target := ValidateTarget(c, raw);
      if !IsAcceptedKey(handle) || target.None? {
        FailureIsFinal(c, value.entries, i + 1);
        return None;
      }
      parsed := parsed + [(handle, target.value)];
    }
    assert value.entries[..|value.entries|] == value.entries;
    r := Some(parsed);
  }

  function TargetsOf(c: Coercion, value: Dict<RawTarget>): Option<seq<(string, RemoteTarget)>> {
    match value
    case Absent => Some([])
    case Nil => Some([])
    case NotADict => None
    case Dict(entries) => if |entries| > 16 then None else ValidateTargets(c, entries)
  }

  // ---------------------------------------------------------------- files and kube targets

  predicate IsPath(path: string) {
    1 <= |path| <= 4096 && path[0] == '/'
  }

  function ValidatePath(v: Option<Value>): Option<string> {
    var path :- RequiredText(v);
    if !(1 <= |path| <= 4096) || path[0] == '~' || path[0] != '/' then None else Some(path)
  }

  function ValidateFile(c: Coercion, raw: RawFile): Option<FileSpec> {
    if raw.NotAFile? || raw.extra then None
    else
      var path :- ValidatePath(raw.path);
      var required :- BoolOr(c, raw.required, true);
      Some(FileSpec(path, required))
  }

  function ValidateKube(c: Coercion, raw: RawKube): Option<KubeTarget> {
    if raw.NotAKube? || raw.extra then None
    else
      var path :- ValidatePath(raw.path);
      var tlsServerName :- OptionalText(raw.tlsServerName);
      var insecure :- BoolOr(c, raw.insecure, false);
      var required :- BoolOr(c, raw.required, true);
      Some(KubeTarget(path, tlsServerName, insecure, required))
  }

  function FileValidator(c: Coercion): RawFile -> Option<FileSpec> {
    raw => ValidateFile(c, raw)
  }

  function KubeValidator(c: Coercion): RawKube -> Option<KubeTarget> {
    raw => ValidateKube(c, raw)
  }

  /** All entries of a dict by one validator of values, and with accepted keys. */
  function ValidateEntries<R, T>(validate: R -> Option<T>, entries: seq<(string, R)>): Option<seq<(string, T)>> {
    if entries == [] then Some([])
    else
      var value :- validate(entries[0].1);
      var rest :- ValidateEntries(validate, entries[1..]);
      if IsAcceptedKey(entries[0].0) then Some([(entries[0].0, value)] + rest) else None
  }

  /** fetch_files and kube_targets: absent, or one to sixteen entries. */
  function ValidateSection<R, T>(validate: R -> Option<T>, value: Dict<R>): Option<Option<seq<(string, T)>>> {
    match value
    case Absent => Some(None)
    case Nil => Some(None)
    case NotADict => None
    case Dict(entries) =>
      var section :- ValidateEntries(validate, entries);
      if 1 <= |entries| <= 16 then Some(Some(section)) else None
  }

  // ---------------------------------------------------------------- nodes and the whole input

  function ValidateOptions(c: Coercion, raw: Option<RawOptions>): Option<Options> {
    if raw.None? then Some(Options(false, 60))
    else if raw.value.NotOptions? || raw.value.extra then None
    else
      var compression :- BoolOr(c, raw.value.compression, false);
      var timeout :- IntOr(c, raw.value.timeout, 60);
      Some(Options(compression, timeout))
  }

  /** `_validate_node_does_something` */
  predicate DoesSomething(node: Node) {
    node.targets != [] || (node.kubes.Some? && node.kubes.value != []) || (node.files.Some? && node.files.value != [])
  }

  function ValidateNode(c: Coercion, raw: RawNode): Option<Node> {
    if raw.NotANode? || raw.extra then None
    else
      var host :- RequiredText(raw.host);
      var port :- IntOr(c, raw.port, 22);
      var user :- RequiredText(raw.user);
      var key :- OptionalText(raw.key);
      var password :- OptionalText(raw.password);
      var passphrase :- OptionalText(raw.passphrase);
      var targets :- TargetsOf(c, raw.targets);
      var options :- ValidateOptions(c, raw.options);
      var required :- BoolOr(c, raw.required, true);
      var files :- ValidateSection(FileValidator(c), raw.files);
      var kubes :- ValidateSection(KubeValidator(c), raw.kubes);
      var node := Node(host, port, user, key, password, passphrase, targets, options, required, files, kubes);
      if DoesSomething(node) then Some(node) else None
  }

  function NodeValidator(c: Coercion): RawNode -> Option<Node> {
    raw => ValidateNode(c, raw)
  }

  function ValidateDaemon(c: Coercion, raw: Option<RawDaemon>): Option<Daemon> {
    if raw.None? then Some(Daemon(None, 10, None, false))
    else if raw.value.NotADaemon? || raw.value.extra then None
    else
      var logFile :- OptionalText(raw.value.logFile);
      var grace :- IntOr(c, raw.value.grace, 10);
      var idle :- OptionalInt(c, raw.value.idle);
      var materialize :- BoolOr(c, raw.value.materialize, false);
      if idle.Some? && idle.value < 1 then None else Some(Daemon(logFile, grace, idle, materialize))
  }

  /** A private key, a password, or else a running agent. */
  predicate CanAuthenticate(node: Node, agent: bool) {
    (node.key.Some? && node.key.value != []) || (node.password.Some? && node.password.value != []) || agent
  }

  predicate AllAuthenticate(input: Input, agent: bool) {
    forall i | 0 <= i < |input.nodes| :: CanAuthenticate(input.nodes[i].1, agent)
  }

  /** InputSchema.model_validate, in an environment with or without SSH_AUTH_SOCK. */
  function Validate(c: Coercion, raw: RawInput, agent: bool): Option<Input> {
    if raw.extra || !raw.nodes.Dict? then None
    else
      var nodes :- ValidateEntries(NodeValidator(c), raw.nodes.entries);
      var daemon :- ValidateDaemon(c, raw.daemon);
      if AllAuthenticate(Input(nodes, daemon), agent) then Some(Input(nodes, daemon)) else None
  }

  // ---------------------------------------------------------------- the dump

  function TextOrNull(t: Option<string>): Option<Value> {
    Some(if t.Some? then Text(t.value) else Null)
  }

  function IntOrNull(n: Option<int>): Option<Value> {
    Some(if n.Some? then Number(n.value) else Null)
  }

  function DumpTarget(target: RemoteTarget): RawTarget {
    Fields(Some(Text(target.host)), Some(Number(target.port)), false)
  }

  function DumpFile(file: FileSpec): RawFile {
    RawFile(Some(Text(file.path)), Some(Bool(file.required)), false)
  }

  function DumpKube(kube: KubeTarget): RawKube {
    RawKube(
      Some(Text(kube.path)), TextOrNull(kube.tlsServerName), Some(Bool(kube.insecure)), Some(Bool(kube.required)),
      false)
  }

  function DumpEntries<T, R>(dump: T -> R, entries: seq<(string, T)>): (dumped: seq<(string, R)>)
    ensures |dumped| == |entries|
  {
    if entries == [] then [] else [(entries[0].0, dump(entries[0].1))] + DumpEntries(dump, entries[1..])
  }

  function DumpSection<T, R>(dump: T -> R, section: Option<seq<(string, T)>>): Dict<R> {
    if section.None? then Nil else Dict(DumpEntries(dump, section.value))
  }

  function DumpNode(node: Node): RawNode {
    RawNode(
      Some(Text(node.host)), Some(Number(node.port)), Some(Text(node.user)),
      TextOrNull(node.key), TextOrNull(node.password), TextOrNull(node.passphrase),
      Dict(DumpEntries(DumpTarget, node.targets)),
      Some(RawOptions(Some(Bool(node.options.compression)), Some(Number(node.options.timeout)), false)),
      Some(Bool(node.required)),
      DumpSection(DumpFile, node.files), DumpSection(DumpKube, node.kubes), false)
  }

  function DumpDaemon(daemon: Daemon): RawDaemon {
    RawDaemon(
      TextOrNull(daemon.logFile), Some(Number(daemon.grace)), IntOrNull(daemon.idle), Some(Bool(daemon.materialize)),
      false)
  }

  /** model_dump_json: what the parent sends to the worker. */
  function Dump(input: Input): RawInput {
    RawInput(Dict(DumpEntries(DumpNode, input.nodes)), Some(DumpDaemon(input.daemon)), false)
  }

  // ---------------------------------------------------------------- what validation reads

  /** An optional text: absent or null is none. */
  predicate ReadsText(v: Option<Value>, t: Option<string>) {
    if t.None? then v == None || v == Some(Null) else v == Some(Text(t.value))
  }

  predicate ReadsInt(c: Coercion, v: Option<Value>, n: int, default: int) {
    if v.None? then n == default else c.toInt(v.value) == Some(n)
  }

  predicate ReadsBool(c: Coercion, v: Option<Value>, b: bool, default: bool) {
    if v.None? then b == default else c.toBool(v.value) == Some(b)
  }

  /** A target in its parsed form, as an object, or as text that schemas.py takes apart. */
  predicate ReadsTarget(c: Coercion, raw: RawTarget, target: RemoteTarget) {
    match raw
    case Parsed(t) => t == target
    case Fields(host, port, extra) =>
      && !extra && host == Some(Text(target.host)) && port.Some? && c.toInt(port.value) == Some(target.port)
      && 1 <= |target.host| <= 255 && 1 <= target.port <= 65535
    case Scalar(value) =>
      && value.Text? && ParseHostPort(c.read, value.s) == Ok((target.host, target.port))
      && 1 <= |target.host| <= 255 && 1 <= target.port <= 65535
  }

  predicate ReadsFile(c: Coercion, raw: RawFile, file: FileSpec) {
    && raw.RawFile? && !raw.extra
    && raw.path == Some(Text(file.path)) && 1 <= |file.path| <= 4096 && file.path[0] == '/'
    && ReadsBool(c, raw.required, file.required, true)
  }

  predicate ReadsKube(c: Coercion, raw: RawKube, kube: KubeTarget) {
    && raw.RawKube? && !raw.extra
    && raw.path == Some(Text(kube.path)) && 1 <= |kube.path| <= 4096 && kube.path[0] == '/'
    && ReadsText(raw.tlsServerName, kube.tlsServerName)
    && ReadsBool(c, raw.insecure, kube.insecure, false) && ReadsBool(c, raw.required, kube.required, true)
  }

  predicate ReadsOptions(c: Coercion, raw: Option<RawOptions>, options: Options) {
    match raw
    case None => !options.compression && options.timeout == 60
    case Some(NotOptions) => false
    case Some(RawOptions(compression, timeout, extra)) =>
      !extra && ReadsBool(c, compression, options.compression, false) && ReadsInt(c, timeout, options.timeout, 60)
  }

  /** The same accepted keys, in the same order. */
  predicate ReadsKeys<R, T>(entries: seq<(string, R)>, values: seq<(string, T)>) {
    && |values| == |entries|
    && forall i | 0 <= i < |entries| :: IsAcceptedKey(entries[i].0) && values[i].0 == entries[i].0
  }

  predicate ReadsTargets(c: Coercion, raw: Dict<RawTarget>, targets: seq<(string, RemoteTarget)>) {
    match raw
    case Dict(entries) =>
      && |entries| <= 16 && ReadsKeys(entries, targets)
      && forall i | 0 <= i < |entries| :: ReadsTarget(c, entries[i].1, targets[i].1)
    case NotADict => false
    case _ => targets == []
  }

  predicate ReadsFiles(c: Coercion, raw: Dict<RawFile>, files: Option<seq<(string, FileSpec)>>) {
    match raw
    case Dict(entries) =>
      && files.Some? && 1 <= |entries| <= 16 && ReadsKeys(entries, files.value)
      && forall i | 0 <= i < |entries| :: ReadsFile(c, entries[i].1, files.value[i].1)
    case NotADict => false
    case _ => files == None
  }

  predicate ReadsKubes(c: Coercion, raw: Dict<RawKube>, kubes: Option<seq<(string, KubeTarget)>>) {
    match raw
    case Dict(entries) =>
      && kubes.Some? && 1 <= |entries| <= 16 && ReadsKeys(entries, kubes.value)
      && forall i | 0 <= i < |entries| :: ReadsKube(c, entries[i].1, kubes.value[i].1)
    case NotADict => false
    case _ => kubes == None
  }

  /** Field by field, with the default of each field that is absent; and the node has something to do. */
  predicate ReadsNode(c: Coercion, raw: RawNode, node: Node) {
    && raw.RawNode? && !raw.extra
    && raw.host == Some(Text(node.host)) && ReadsInt(c, raw.port, node.port, 22) && raw.user == Some(Text(node.user))
    && ReadsText(raw.key, node.key) && ReadsText(raw.password, node.password)
    && ReadsText(raw.passphrase, node.passphrase)
    && ReadsTargets(c, raw.targets, node.targets) && ReadsOptions(c, raw.options, node.options)
    && ReadsBool(c, raw.required, node.required, true)
    && ReadsFiles(c, raw.files, node.files) && ReadsKubes(c, raw.kubes, node.kubes)
    && (node.targets != [] || node.kubes.Some? || node.files.Some?)
  }

  predicate ReadsDaemon(c: Coercion, raw: Option<RawDaemon>, daemon: Daemon) {
    match raw
    case None => daemon == Daemon(None, 10, None, false)
    case Some(NotADaemon) => false
    case Some(RawDaemon(logFile, grace, idle, materialize, extra)) =>
      && !extra && ReadsText(logFile, daemon.logFile) && ReadsInt(c, grace, daemon.grace, 10)
      && (if daemon.idle.None? then idle == None || idle == Some(Null)
          else idle.Some? && !idle.value.Null? && c.toInt(idle.value) == daemon.idle && daemon.idle.value >= 1)
      && ReadsBool(c, materialize, daemon.materialize, false)
  }

  predicate ReadsInput(c: Coercion, raw: RawInput, agent: bool, input: Input) {
    && !raw.extra && raw.nodes.Dict? && ReadsKeys(raw.nodes.entries, input.nodes)
    && (forall i | 0 <= i < |input.nodes| ::
          && ReadsNode(c, raw.nodes.entries[i].1, input.nodes[i].1)
          && (agent
              || (input.nodes[i].1.key.Some? && input.nodes[i].1.key.value != "")
              || (input.nodes[i].1.password.Some? && input.nodes[i].1.password.value != "")))
    && ReadsDaemon(c, raw.daemon, input.daemon)
  }

  lemma TargetReads(c: Coercion, raw: RawTarget, target: RemoteTarget)
    ensures ValidateTarget(c, raw) == Some(target) <==> ReadsTarget(c, raw, target)
  {
  }

  lemma FileReads(c: Coercion, raw: RawFile, file: FileSpec)
    ensures ValidateFile(c, raw) == Some(file) <==> ReadsFile(c, raw, file)
  {
  }

  lemma KubeReads(c: Coercion, raw: RawKube, kube: KubeTarget)
    ensures ValidateKube(c, raw) == Some(kube) <==> ReadsKube(c, raw, kube)
  {
  }

  lemma {:induction false} TargetsRead(
      c: Coercion, entries: seq<(string, RawTarget)>, targets: seq<(string, RemoteTarget)>)
    ensures ValidateTargets(c, entries) == Some(targets) <==>
      ReadsKeys(entries, targets) && forall i | 0 <= i < |entries| :: ReadsTarget(c, entries[i].1, targets[i].1)
    decreases |entries|
  {
    if entries != [] && targets != [] {
      var k, m := |entries| - 1, |targets| - 1;
      TargetsRead(c, entries[..k], targets[..m]);
      TargetReads(c, entries[k].1, targets[m].1);
      assert targets == targets[..m] + [targets[m]];
      assert forall i | 0 <= i < k :: entries[..k][i] == entries[i];
    } else if entries != [] {
      assert ValidateTargets(c, entries).Some? ==> ValidateTargets(c, entries).value != [];
    }
  }

  lemma {:induction false} EntriesRead<R, T>(
      validate: R -> Option<T>, entries: seq<(string, R)>, values: seq<(string, T)>)
    ensures ValidateEntries(validate, entries) == Some(values) <==>
      && ReadsKeys(entries, values)
      && forall i | 0 <= i < |entries| :: validate(entries[i].1) == Some(values[i].1)
    decreases |entries|
  {
    if entries != [] && values != [] {
      EntriesRead(validate, entries[1..], values[1..]);
      assert values == [values[0]] + values[1..];
      assert forall i | 1 <= i < |entries| :: entries[i] == entries[1..][i - 1];
      assert forall i | 1 <= i < |values| :: values[i] == values[1..][i - 1];
    }
  }

  lemma FilesRead(c: Coercion, raw: Dict<RawFile>, files: Option<seq<(string, FileSpec)>>)
    ensures ValidateSection(FileValidator(c), raw) == Some(files) <==> ReadsFiles(c, raw, files)
  {
    if raw.Dict? && files.Some? {
      EntriesRead(FileValidator(c), raw.entries, files.value);
      forall i | 0 <= i < |raw.entries| && i < |files.value|
        ensures FileValidator(c)(raw.entries[i].1) == Some(files.value[i].1) <==>
          ReadsFile(c, raw.entries[i].1, files.value[i].1)
      {
        FileReads(c, raw.entries[i].1, files.value[i].1);
      }
    }
  }

  lemma KubesRead(c: Coercion, raw: Dict<RawKube>, kubes: Option<seq<(string, KubeTarget)>>)
    ensures ValidateSection(KubeValidator(c), raw) == Some(kubes) <==> ReadsKubes(c, raw, kubes)
  {
    if raw.Dict? && kubes.Some? {
      EntriesRead(KubeValidator(c), raw.entries, kubes.value);
      forall i | 0 <= i < |raw.entries| && i < |kubes.value|
        ensures KubeValidator(c)(raw.entries[i].1) == Some(kubes.value[i].1) <==>
          ReadsKube(c, raw.entries[i].1, kubes.value[i].1)
      {
        KubeReads(c, raw.entries[i].1, kubes.value[i].1);
      }
    }
  }

  lemma TargetDictReads(c: Coercion, raw: Dict<RawTarget>, targets: seq<(string, RemoteTarget)>)
    ensures TargetsOf(c, raw) == Some(targets) <==> ReadsTargets(c, raw, targets)
  {
    if raw.Dict? {
      TargetsRead(c, raw.entries, targets);
    }
  }

  lemma ScalarsRead(c: Coercion, raw: RawNode, node: Node)
    requires raw.RawNode?
    ensures RequiredText(raw.host) == Some(node.host) <==> raw.host == Some(Text(node.host))
    ensures RequiredText(raw.user) == Some(node.user) <==> raw.user == Some(Text(node.user))
    ensures OptionalText(raw.key) == Some(node.key) <==> ReadsText(raw.key, node.key)
    ensures OptionalText(raw.password) == Some(node.password) <==> ReadsText(raw.password, node.password)
    ensures OptionalText(raw.passphrase) == Some(node.passphrase) <==> ReadsText(raw.passphrase, node.passphrase)
    ensures IntOr(c, raw.port, 22) == Some(node.port) <==> ReadsInt(c, raw.port, node.port, 22)
    ensures BoolOr(c, raw.required, true) == Some(node.required) <==> ReadsBool(c, raw.required, node.required, true)
    ensures ValidateOptions(c, raw.options) == Some(node.options) <==> ReadsOptions(c, raw.options, node.options)
  {
  }

  lemma NodeReads(c: Coercion, raw: RawNode, node: Node)
    ensures ValidateNode(c, raw) == Some(node) <==> ReadsNode(c, raw, node)
  {
    if raw.RawNode? {
      ScalarsRead(c, raw, node);
      TargetDictReads(c, raw.targets, node.targets);
      FilesRead(c, raw.files, node.files);
      KubesRead(c, raw.kubes, node.kubes);
    }
  }

  lemma DaemonReads(c: Coercion, raw: Option<RawDaemon>, daemon: Daemon)
    ensures ValidateDaemon(c, raw) == Some(daemon) <==> ReadsDaemon(c, raw, daemon)
  {
  }

  /** Which input is accepted, and what it is read as, field by field. */
  lemma ValidatesExactlyIf(c: Coercion, raw: RawInput, agent: bool, input: Input)
    ensures Validate(c, raw, agent) == Some(input) <==> ReadsInput(c, raw, agent, input)
  {
    if raw.nodes.Dict? {
      EntriesRead(NodeValidator(c), raw.nodes.entries, input.nodes);
      forall i | 0 <= i < |raw.nodes.entries| && i < |input.nodes|
        ensures NodeValidator(c)(raw.nodes.entries[i].1) == Some(input.nodes[i].1) <==>
          ReadsNode(c, raw.nodes.entries[i].1, input.nodes[i].1)
      {
        NodeReads(c, raw.nodes.entries[i].1, input.nodes[i].1);
      }
    }
    DaemonReads(c, raw.daemon, input.daemon);
  }

  // ---------------------------------------------------------------- what validation establishes

  predicate HasGoodKeys<T>(entries: seq<(string, T)>) {
    forall i | 0 <= i < |entries| :: IsAcceptedKey(entries[i].0)
  }

  predicate IsFile(file: FileSpec) {
    IsPath(file.path)
  }

  predicate IsKube(kube: KubeTarget) {
    IsPath(kube.path)
  }

  predicate IsSection<T>(isGood: T -> bool, section: Option<seq<(string, T)>>) {
    section.Some? ==>
      && 1 <= |section.value| <= 16 && HasGoodKeys(section.value)
      && forall i | 0 <= i < |section.value| :: isGood(section.value[i].1)
  }

  predicate IsNode(node: Node) {
    && |node.targets| <= 16 && HasGoodKeys(node.targets)
    && (forall i | 0 <= i < |node.targets| :: IsTarget(node.targets[i].1))
    && IsSection(IsFile, node.files) && IsSection(IsKube, node.kubes)
    && DoesSomething(node)
  }

  predicate IsInput(input: Input) {
    && HasGoodKeys(input.nodes) && (forall i | 0 <= i < |input.nodes| :: IsNode(input.nodes[i].1))
    && (input.daemon.idle.Some? ==> input.daemon.idle.value >= 1)
  }

  /** Input from JSON text, where targets never come ready made. */
  predicate IsJson(raw: RawInput) {
    raw.nodes.Dict? ==>
      forall i | 0 <= i < |raw.nodes.entries| :: IsJsonNode(raw.nodes.entries[i].1)
  }

  predicate IsJsonNode(raw: RawNode) {
    raw.RawNode? && raw.targets.Dict? ==>
      forall j | 0 <= j < |raw.targets.entries| :: !raw.targets.entries[j].1.Parsed?
  }

  lemma {:induction false} TargetsAreGood(c: Coercion, entries: seq<(string, RawTarget)>)
    requires ValidateTargets(c, entries).Some? && forall i | 0 <= i < |entries| :: !entries[i].1.Parsed?
    ensures var targets := ValidateTargets(c, entries).value;
      && |targets| == |entries| && HasGoodKeys(targets)
      && (forall i | 0 <= i < |targets| :: IsTarget(targets[i].1) && targets[i].0 == entries[i].0)
  {
    if entries != [] {
      TargetsAreGood(c, entries[..|entries| - 1]);
    }
  }

  lemma {:induction false} EntriesAreGood<R, T>(validate: R -> Option<T>, entries: seq<(string, R)>)
    requires ValidateEntries(validate, entries).Some?
    ensures var values := ValidateEntries(validate, entries).value;
      && |values| == |entries| && HasGoodKeys(values)
      && (forall i | 0 <= i < |values| :: validate(entries[i].1) == Some(values[i].1) && values[i].0 == entries[i].0)
  {
    if entries != [] {
      EntriesAreGood(validate, entries[1..]);
      assert forall i | 1 <= i < |entries| :: entries[i] == entries[1..][i - 1];
    }
  }

  lemma SectionIsGood<R, T>(validate: R -> Option<T>, isGood: T -> bool, value: Dict<R>)
    requires ValidateSection(validate, value).Some?
    requires forall raw: R :: validate(raw).Some? ==> isGood(validate(raw).value)
    ensures IsSection(isGood, ValidateSection(validate, value).value)
  {
    if value.Dict? {
      EntriesAreGood(validate, value.entries);
      var section := ValidateEntries(validate, value.entries).value;
      forall i | 0 <= i < |section|
        ensures isGood(section[i].1)
      {
        assert validate(value.entries[i].1) == Some(section[i].1);
      }
    }
  }

  lemma NodeIsGood(c: Coercion, raw: RawNode)
    requires ValidateNode(c, raw).Some? && IsJsonNode(raw)
    ensures IsNode(ValidateNode(c, raw).value)
  {
    if raw.targets.Dict? {
      TargetsAreGood(c, raw.targets.entries);
    }
    SectionIsGood(FileValidator(c), IsFile, raw.files);
    SectionIsGood(KubeValidator(c), IsKube, raw.kubes);
  }

  /** Whatever JSON validation accepts keeps all the rules of the schema. */
  lemma ValidatedInputIsGood(c: Coercion, raw: RawInput, agent: bool)
    requires Validate(c, raw, agent).Some? && IsJson(raw)
    ensures var input := Validate(c, raw, agent).value; IsInput(input) && AllAuthenticate(input, agent)
  {
    var input := Validate(c, raw, agent).value;
    EntriesAreGood(NodeValidator(c), raw.nodes.entries);
    forall i | 0 <= i < |input.nodes|
      ensures IsNode(input.nodes[i].1)
    {
      NodeIsGood(c, raw.nodes.entries[i].1);
    }
  }

  // ---------------------------------------------------------------- the trip to the worker

  lemma {:induction false} TargetsSurvive(c: Coercion, targets: seq<(string, RemoteTarget)>)
    requires IsFaithful(c) && HasGoodKeys(targets) && forall i | 0 <= i < |targets| :: IsTarget(targets[i].1)
    ensures ValidateTargets(c, DumpEntries(DumpTarget, targets)) == Some(targets)
  {
    if targets != [] {
      var k := |targets| - 1;
      TargetsSurvive(c, targets[..k]);
      DumpSnoc(DumpTarget, targets[..k], targets[k]);
      assert targets[..k] + [targets[k]] == targets;
    }
  }

  lemma {:induction false} DumpSnoc<T, R>(dump: T -> R, entries: seq<(string, T)>, entry: (string, T))
    ensures DumpEntries(dump, entries + [entry]) == DumpEntries(dump, entries) + [(entry.0, dump(entry.1))]
  {
    if entries == [] {
      assert entries + [entry] == [entry];
    } else {
      DumpSnoc(dump, entries[1..], entry);
      assert (entries + [entry])[1..] == entries[1..] + [entry];
    }
  }

  lemma {:induction false} EntriesSurvive<T, R>(dump: T -> R, validate: R -> Option<T>, entries: seq<(string, T)>)
    requires HasGoodKeys(entries) && forall i | 0 <= i < |entries| :: validate(dump(entries[i].1)) == Some(entries[i].1)
    ensures ValidateEntries(validate, DumpEntries(dump, entries)) == Some(entries)
  {
    if entries != [] {
      assert forall i | 1 <= i < |entries| :: entries[i] == entries[1..][i - 1];
      EntriesSurvive(dump, validate, entries[1..]);
      assert entries == [entries[0]] + entries[1..];
    }
  }

  lemma SectionSurvives<T, R>(
      dump: T -> R, validate: R -> Option<T>, isGood: T -> bool, section: Option<seq<(string, T)>>)
    requires IsSection(isGood, section) && forall value: T :: isGood(value) ==> validate(dump(value)) == Some(value)
    ensures ValidateSection(validate, DumpSection(dump, section)) == Some(section)
  {
    if section.Some? {
      EntriesSurvive(dump, validate, section.value);
    }
  }

  lemma FilesSurvive(c: Coercion, files: Option<seq<(string, FileSpec)>>)
    requires IsFaithful(c) && IsSection(IsFile, files)
    ensures ValidateSection(FileValidator(c), DumpSection(DumpFile, files)) == Some(files)
  {
    SectionSurvives(DumpFile, FileValidator(c), IsFile, files);
  }

  lemma KubesSurvive(c: Coercion, kubes: Option<seq<(string, KubeTarget)>>)
    requires IsFaithful(c) && IsSection(IsKube, kubes)
    ensures ValidateSection(KubeValidator(c), DumpSection(DumpKube, kubes)) == Some(kubes)
  {
    SectionSurvives(DumpKube, KubeValidator(c), IsKube, kubes);
  }

  lemma DictsSurvive(c: Coercion, node: Node)
    requires IsFaithful(c) && IsNode(node)
    ensures var raw := DumpNode(node);
      && TargetsOf(c, raw.targets) == Some(node.targets)
      && ValidateSection(FileValidator(c), raw.files) == Some(node.files)
      && ValidateSection(KubeValidator(c), raw.kubes) == Some(node.kubes)
  {
    TargetsSurvive(c, node.targets);
    FilesSurvive(c, node.files);
    KubesSurvive(c, node.kubes);
  }

  lemma ScalarsSurvive(c: Coercion, node: Node)
    requires IsFaithful(c)
    ensures var raw := DumpNode(node);
      && RequiredText(raw.host) == Some(node.host) && IntOr(c, raw.port, 22) == Some(node.port)
      && RequiredText(raw.user) == Some(node.user)
      && OptionalText(raw.key) == Some(node.key) && OptionalText(raw.password) == Some(node.password)
      && OptionalText(raw.passphrase) == Some(node.passphrase)
      && ValidateOptions(c, raw.options) == Some(node.options) && BoolOr(c, raw.required, true) == Some(node.required)
  {
  }

  lemma NodeSurvives(c: Coercion, node: Node)
    requires IsFaithful(c) && IsNode(node)
    ensures ValidateNode(c, DumpNode(node)) == Some(node)
  {
    DictsSurvive(c, node);
    ScalarsSurvive(c, node);
  }

  lemma NodesSurvive(c: Coercion, nodes: seq<(string, Node)>)
    requires IsFaithful(c) && HasGoodKeys(nodes) && forall i | 0 <= i < |nodes| :: IsNode(nodes[i].1)
    ensures ValidateEntries(NodeValidator(c), DumpEntries(DumpNode, nodes)) == Some(nodes)
  {
    forall i | 0 <= i < |nodes|
      ensures NodeValidator(c)(DumpNode(nodes[i].1)) == Some(nodes[i].1)
    {
      NodeSurvives(c, nodes[i].1);
    }
    EntriesSurvive(DumpNode, NodeValidator(c), nodes);
  }

  lemma DaemonSurvives(c: Coercion, daemon: Daemon)
    requires IsFaithful(c) && (daemon.idle.Some? ==> daemon.idle.value >= 1)
    ensures ValidateDaemon(c, Some(DumpDaemon(daemon))) == Some(daemon)
  {
  }

  lemma GoodInputSurvives(c: Coercion, input: Input, agent: bool)
    requires IsFaithful(c) && IsInput(input)
    ensures Validate(c, Dump(input), agent) == if AllAuthenticate(input, agent) then Some(input) else None
  {
    NodesSurvive(c, input.nodes);
    DaemonSurvives(c, input.daemon);
  }

  /**
   The worker validates the dump to exactly the input that the parent validated, whatever form its
   targets had at first, and though the parent converts Python values and the worker JSON text;
   unless the worker has no agent and some node needs one.
   */
  lemma InputSurvives(parent: Coercion, worker: Coercion, raw: RawInput, agent: bool, workerAgent: bool)
    requires IsFaithful(worker) && IsJson(raw) && Validate(parent, raw, agent).Some?
    ensures var input := Validate(parent, raw, agent).value;
      Validate(worker, Dump(input), workerAgent) == (if AllAuthenticate(input, workerAgent) then Some(input) else None)
  {
    ValidatedInputIsGood(parent, raw, agent);
    GoodInputSurvives(worker, Validate(parent, raw, agent).value, workerAgent);
  }
}
