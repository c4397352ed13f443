/** From validated input to what the manager starts: one plan per node, in schema order. */
module Plans {
  import opened Wrappers
  import opened Schemas
  import Nodes
  import Manager
  import Fetcher
  import KubeTargets

  /** The keys of a dict are distinct; here its entries come as a list. */
  predicate HasDistinctKeys<T>(entries: seq<(string, T)>) {
    forall i, j | 0 <= i < j < |entries| :: entries[i].0 != entries[j].0
  }

  predicate IsDictLike<T>(dict: Dict<T>) {
    dict.Dict? ==> HasDistinctKeys(dict.entries)
  }

  predicate NodeIsDictLike(raw: RawNode) {
    raw.RawNode? ==> IsDictLike(raw.targets) && IsDictLike(raw.files) && IsDictLike(raw.kubes)
  }

  /** Raw input as Python's dicts and JSON's objects give it. */
  predicate InputIsDictLike(raw: RawInput) {
    IsDictLike(raw.nodes)
    && (raw.nodes.Dict? ==> forall i | 0 <= i < |raw.nodes.entries| :: NodeIsDictLike(raw.nodes.entries[i].1))
  }

  function Handles(targets: seq<(string, RemoteTarget)>): seq<string> {
    seq(|targets|, i requires 0 <= i < |targets| => targets[i].0)
  }

  function Files(section: Option<seq<(string, FileSpec)>>): seq<Fetcher.FileSpec> {
    if section.None? then []
    else
      seq(|section.value|, i requires 0 <= i < |section.value| =>
        Fetcher.FileSpec(section.value[i].0, section.value[i].1.path, section.value[i].1.required))
  }

  function Kubes(section: Option<seq<(string, KubeTarget)>>): seq<KubeTargets.KubeTarget> {
    if section.None? then []
    else
      seq(|section.value|, i requires 0 <= i < |section.value| =>
        KubeTargets.KubeTarget(
          section.value[i].0, section.value[i].1.tlsServerName,
          section.value[i].1.insecure, section.value[i].1.required))
  }

  /** What _start_one takes from the schema. */
  function NodeOf(name: string, node: Node): Nodes.Node {
    Nodes.Node(name, node.required, Handles(node.targets), Files(node.files), Kubes(node.kubes))
  }

  /** Every call of the node's start gets an answer. */
  predicate Answers(fate: Nodes.Fate, node: Nodes.Node) {
    |fate.attempts| == |node.handles| && |fate.fileAnswers| == |node.files| && |fate.kubeAnswers| == |node.targets|
  }

  function PlansOf(input: Input, fates: seq<Nodes.Fate>): (plans: seq<Nodes.Plan>)
    requires |fates| == |input.nodes|
    ensures |plans| == |input.nodes|
  {
    seq(|input.nodes|, i requires 0 <= i < |input.nodes| =>
      Nodes.Plan(NodeOf(input.nodes[i].0, input.nodes[i].1), fates[i]))
  }

  /** The plans ask for just what the input does: the same nodes, names and requirements, in the same order. */
  lemma PlansAreAsAsked(input: Input, fates: seq<Nodes.Fate>, i: nat)
    requires |fates| == |input.nodes| && i < |input.nodes|
    ensures var (name, node) := input.nodes[i];
      var plan := PlansOf(input, fates)[i];
      && plan.fate == fates[i] && plan.node.name == name && plan.node.required == node.required
      && |plan.node.handles| == |node.targets|
      && (forall j | 0 <= j < |node.targets| :: plan.node.handles[j] == node.targets[j].0)
      && |plan.node.files| == (if node.files.None? then 0 else |node.files.value|)
      && (forall j | 0 <= j < |plan.node.files| ::
            plan.node.files[j]
            == Fetcher.FileSpec(node.files.value[j].0, node.files.value[j].1.path, node.files.value[j].1.required))
      && |plan.node.targets| == (if node.kubes.None? then 0 else |node.kubes.value|)
      && (forall j | 0 <= j < |plan.node.targets| ::
            var kube := node.kubes.value[j].1;
            plan.node.targets[j]
            == KubeTargets.KubeTarget(node.kubes.value[j].0, kube.tlsServerName, kube.insecure, kube.required))
  {
  }

  lemma {:induction false} TargetKeysStay(c: Coercion, entries: seq<(string, RawTarget)>)
    requires ValidateTargets(c, entries).Some?
    ensures var targets := ValidateTargets(c, entries).value;
      |targets| == |entries| && forall i | 0 <= i < |targets| :: targets[i].0 == entries[i].0
  {
    if entries != [] {
      TargetKeysStay(c, entries[..|entries| - 1]);
    }
  }

  lemma SectionKeysStay<R, T>(validate: R -> Option<T>, value: Dict<R>)
    requires ValidateSection(validate, value).Some? && IsDictLike(value)
    ensures var section := ValidateSection(validate, value).value; section.Some? ==> HasDistinctKeys(section.value)
  {
    if value.Dict? {
      EntriesAreGood(validate, value.entries);
    }
  }

  lemma NodeParts(c: Coercion, raw: RawNode)
    requires ValidateNode(c, raw).Some?
    ensures var node := ValidateNode(c, raw).value;
      && raw.RawNode? && TargetsOf(c, raw.targets) == Some(node.targets)
      && ValidateSection(FileValidator(c), raw.files) == Some(node.files)
      && ValidateSection(KubeValidator(c), raw.kubes) == Some(node.kubes)
  {
  }

  lemma TargetKeysAreDistinct(c: Coercion, targets: Dict<RawTarget>)
    requires TargetsOf(c, targets).Some? && IsDictLike(targets)
    ensures HasDistinctKeys(TargetsOf(c, targets).value)
  {
    if targets.Dict? {
      TargetKeysStay(c, targets.entries);
    }
  }

  lemma NodeKeysAreDistinct(c: Coercion, raw: RawNode)
    requires ValidateNode(c, raw).Some? && NodeIsDictLike(raw)
    ensures var node := ValidateNode(c, raw).value;
      && HasDistinctKeys(node.targets)
      && (node.files.Some? ==> HasDistinctKeys(node.files.value))
      && (node.kubes.Some? ==> HasDistinctKeys(node.kubes.value))
  {
    NodeParts(c, raw);
    TargetKeysAreDistinct(c, raw.targets);
    SectionKeysStay(FileValidator(c), raw.files);
    SectionKeysStay(KubeValidator(c), raw.kubes);
  }

  lemma DistinctKeysAreWellFormed(name: string, node: Node, fate: Nodes.Fate)
    requires HasDistinctKeys(node.targets) && Answers(fate, NodeOf(name, node))
    requires node.files.Some? ==> HasDistinctKeys(node.files.value)
    requires node.kubes.Some? ==> HasDistinctKeys(node.kubes.value)
    ensures Nodes.IsWellFormed(Nodes.Plan(NodeOf(name, node), fate))
  {
  }

  lemma ValidatedNodeIsWellFormed(c: Coercion, name: string, raw: RawNode, fate: Nodes.Fate)
    requires ValidateNode(c, raw).Some? && NodeIsDictLike(raw)
    requires Answers(fate, NodeOf(name, ValidateNode(c, raw).value))
    ensures Nodes.IsWellFormed(Nodes.Plan(NodeOf(name, ValidateNode(c, raw).value), fate))
  {
    NodeKeysAreDistinct(c, raw);
    DistinctKeysAreWellFormed(name, ValidateNode(c, raw).value, fate);
  }

  /** Validated input gives the manager a schema: distinct node names, and well-formed nodes with distinct keys. */
  lemma ValidatedInputIsSchema(c: Coercion, raw: RawInput, agent: bool, fates: seq<Nodes.Fate>)
    requires Validate(c, raw, agent).Some? && InputIsDictLike(raw)
    requires var input := Validate(c, raw, agent).value;
      && |fates| == |input.nodes|
      && forall i | 0 <= i < |fates| :: Answers(fates[i], NodeOf(input.nodes[i].0, input.nodes[i].1))
    ensures Manager.IsSchema(PlansOf(Validate(c, raw, agent).value, fates))
  {
    var input, entries := Validate(c, raw, agent).value, raw.nodes.entries;
    EntriesAreGood(NodeValidator(c), entries);
    forall i | 0 <= i < |input.nodes|
      ensures input.nodes[i].0 == entries[i].0
      ensures Nodes.IsWellFormed(PlansOf(input, fates)[i])
    {
      assert NodeValidator(c)(entries[i].1) == Some(input.nodes[i].1);
      ValidatedNodeIsWellFormed(c, input.nodes[i].0, entries[i].1, fates[i]);
    }
  }
}
