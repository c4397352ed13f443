/**
 kube.py: reading a kubeconfig document and patching its current cluster in place. A document is a
 tree; a mapping keeps its entries in order.
 */
module Kubeconfig {
  import opened Wrappers
  import Text

  datatype Yaml =
    | Null
    | Bool(value: bool)
    | Number(number: int)
    | Str(text: string)
    | List(items: seq<Yaml>)
    | Map(entries: Entries)

  type Entries = seq<(string, Yaml)>

  /** Python's truth value of a parsed node. */
  predicate Truthy(y: Yaml) {
    match y
    case Null => false
    case Bool(b) => b
    case Number(n) => n != 0
    case Str(s) => s != ""
    case List(items) => items != []
    case Map(entries) => entries != []
  }

  /** dict.get: a missing key reads as null. */
  function Get(entries: Entries, key: string): Yaml {
    if entries == [] then Null
    else if entries[0].0 == key then entries[0].1
    else Get(entries[1..], key)
  }

  /** dict assignment: in place for a present key, at the end for a new one. */
  function Put(entries: Entries, key: string, value: Yaml): Entries {
    if entries == [] then [(key, value)]
    else if entries[0].0 == key then [(key, value)] + entries[1..]
    else [entries[0]] + Put(entries[1..], key, value)
  }

  /** dict.pop with a default. */
  function Drop(entries: Entries, key: string): Entries {
    if entries == [] then []
    else if entries[0].0 == key then Drop(entries[1..], key)
    else [entries[0]] + Drop(entries[1..], key)
  }

  lemma {:induction false} GetPut(entries: Entries, key: string, value: Yaml, other: string)
    ensures Get(Put(entries, key, value), other) == if other == key then value else Get(entries, other)
  {
    if entries != [] && entries[0].0 != key {
      GetPut(entries[1..], key, value, other);
    }
  }

  lemma {:induction false} GetDrop(entries: Entries, key: string, other: string)
    ensures Get(Drop(entries, key), other) == if other == key then Null else Get(entries, other)
  {
    if entries != [] {
      GetDrop(entries[1..], key, other);
      if entries[0].0 != key {
        var dropped := Drop(entries, key);
        assert dropped[0] == entries[0] && dropped[1..] == Drop(entries[1..], key);
      }
    }
  }

  lemma {:induction false} DropPut(entries: Entries, key: string, value: Yaml, other: string)
    ensures Drop(Put(entries, key, value), other)
            == if other == key then Drop(entries, key) else Put(Drop(entries, other), key, value)
  {
    if entries == [] {
    } else if entries[0].0 == key {
      var put := Put(entries, key, value);
      assert put[0] == (key, value) && put[1..] == entries[1..];
      if other != key {
        var dropped := Drop(entries, other);
        assert dropped[0] == entries[0] && dropped[1..] == Drop(entries[1..], other);
      }
    } else {
      DropPut(entries[1..], key, value, other);
      var put := Put(entries, key, value);
      assert put[0] == entries[0] && put[1..] == Put(entries[1..], key, value);
      if entries[0].0 != other {
        var dropped := Drop(entries, other);
        assert dropped[0] == entries[0] && dropped[1..] == Drop(entries[1..], other);
      }
    }
  }

  /** Drop keeps a first entry of another key in front. */
  lemma DropCons(entries: Entries, key: string)
    requires entries != []
    ensures entries[0].0 != key ==>
      forall other :: Drop(Drop(entries, key), other)
        == if entries[0].0 == other then Drop(Drop(entries[1..], key), other)
           else [entries[0]] + Drop(Drop(entries[1..], key), other)
  {
  }

  lemma {:induction false} DropCommutes(entries: Entries, key: string, other: string)
    ensures Drop(Drop(entries, key), other) == Drop(Drop(entries, other), key)
  {
    if entries != [] {
      DropCommutes(entries[1..], key, other);
      DropCons(entries, key);
      DropCons(entries, other);
    }
  }

  lemma {:induction false} DropTwice(entries: Entries, key: string)
    ensures Drop(Drop(entries, key), key) == Drop(entries, key)
  {
    if entries != [] {
      DropTwice(entries[1..], key);
      DropCons(entries, key);
    }
  }

  /** `value or []`, when that is a list. */
  function ListOf(y: Yaml): Option<seq<Yaml>> {
    if !Truthy(y) then Some([])
    else if y.List? then Some(y.items)
    else None
  }

  predicate IsNamed(entry: Yaml, name: string) {
    entry.Map? && Get(entry.entries, "name") == Str(name)
  }

  /** _find_named: the first entry of that name. */
  function FindNamed(items: seq<Yaml>, name: string): (k: Option<nat>)
    ensures k.Some? ==> k.value < |items| && IsNamed(items[k.value], name)
    ensures k.Some? ==> forall i | 0 <= i < k.value :: !IsNamed(items[i], name)
    ensures k.None? ==> forall i | 0 <= i < |items| :: !IsNamed(items[i], name)
  {
    if items == [] then None
    else if IsNamed(items[0], name) then Some(0)
    else
      match FindNamed(items[1..], name)
      case None => None
      case Some(k) => Some(k + 1)
  }

  /** The mapping under `key`, or an empty one. */
  function BodyOf(entry: Yaml, key: string): Entries {
    if entry.Map? && Get(entry.entries, key).Map? then Get(entry.entries, key).entries else []
  }

  datatype ParseError =
    | RootNotMapping
    | NoCurrentContext
    | ContextNotFound
    | ContextIncomplete
    | ContextNotString
    | ClusterNotFound
    | NoServer
    | UserNotFound
    | FieldNotString(field: string)

  datatype View = View(
    doc: Yaml,
    contextName: string,
    clusterName: string,
    userName: string,
    server: string,
    caData: string,
    certData: string,
    keyData: string,
    ignoredContexts: seq<Yaml>)

  /** _string_field: absent or null reads as "", anything else must be a string. */
  function StringField(body: Entries, field: string): Result<string, ParseError> {
    match Get(body, field)
    case Null => Ok("")
    case Str(s) => Ok(s)
    case _ => Err(FieldNotString(field))
  }

  function OtherName(context: Yaml, current: string): seq<Yaml> {
    if context.Map? && Get(context.entries, "name") != Str(current) then [Get(context.entries, "name")] else []
  }

  /** The names of the contexts other than the current one, in order. */
  function IgnoredNames(contexts: seq<Yaml>, current: string): seq<Yaml> {
    if contexts == [] then []
    else OtherName(contexts[0], current) + IgnoredNames(contexts[1..], current)
  }

  /** The item of that name in the list under `key` of the root. */
  function Lookup(root: Entries, key: string, name: string): Option<Yaml> {
    match ListOf(Get(root, key))
    case None => None
    case Some(items) =>
      match FindNamed(items, name)
      case None => None
      case Some(k) => Some(items[k])
  }

  /** parse_kubeconfig, from the loaded document on. */
  function Parse(doc: Yaml): Result<View, ParseError> {
    if !doc.Map? then Err(RootNotMapping)
    else
      var current := Get(doc.entries, "current-context");
      if !Truthy(current) || !current.Str? then Err(NoCurrentContext)
      else
        match Lookup(doc.entries, "contexts", current.text)
        case None => Err(ContextNotFound)
        case Some(context) => ParseContext(doc, current.text, BodyOf(context, "context"))
  }

  function ParseContext(doc: Yaml, current: string, context: Entries): Result<View, ParseError>
    requires doc.Map?
  {
    var cluster, user := Get(context, "cluster"), Get(context, "user");
    if !Truthy(cluster) || !Truthy(user) then Err(ContextIncomplete)
    else if !cluster.Str? || !user.Str? then Err(ContextNotString)
    else
      match Lookup(doc.entries, "clusters", cluster.text)
      case None => Err(ClusterNotFound)
      case Some(entry) =>
        var clusterBody := BodyOf(entry, "cluster");
        var server := Get(clusterBody, "server");
        if !Truthy(server) || !server.Str? then Err(NoServer)
        else
          match Lookup(doc.entries, "users", user.text)
          case None => Err(UserNotFound)
          case Some(entry) =>
            var contexts := ListOf(Get(doc.entries, "contexts"));
            Extract(doc, current, cluster.text, user.text, server.text, clusterBody, BodyOf(entry, "user"),
                    IgnoredNames(if contexts.Some? then contexts.value else [], current))
  }

  function Extract(
      doc: Yaml, current: string, cluster: string, user: string, server: string,
      clusterBody: Entries, userBody: Entries, ignored: seq<Yaml>): Result<View, ParseError>
  {
    match (StringField(clusterBody, "certificate-authority-data"),
           StringField(userBody, "client-certificate-data"),
           StringField(userBody, "client-key-data"))
    case (Ok(ca), Ok(cert), Ok(key)) => Ok(View(doc, current, cluster, user, server, ca, cert, key, ignored))
    case (Err(e), _, _) => Err(e)
    case (_, Err(e), _) => Err(e)
    case (_, _, Err(e)) => Err(e)
  }

  // ---------------------------------------------------------------- what parsing reads

  /** The first entry of that key, if there is one. */
  lemma {:induction false} GetIsFirst(entries: Entries, key: string)
    ensures (exists k :: 0 <= k < |entries| && entries[k].0 == key && Get(entries, key) == entries[k].1
                         && forall i | 0 <= i < k :: entries[i].0 != key)
            || (Get(entries, key) == Null && forall i | 0 <= i < |entries| :: entries[i].0 != key)
  {
    if entries != [] && entries[0].0 != key {
      var rest := entries[1..];
      GetIsFirst(rest, key);
      if k :| 0 <= k < |rest| && rest[k].0 == key && Get(rest, key) == rest[k].1
              && forall i | 0 <= i < k :: rest[i].0 != key {
        assert entries[k + 1] == rest[k];
        assert forall i | 1 <= i < k + 1 :: entries[i] == rest[i - 1];
      }
    }
  }

  /** The k-th item is the first mapping of that name. */
  predicate IsFirst(items: seq<Yaml>, name: string, k: nat) {
    && k < |items| && items[k].Map? && Get(items[k].entries, "name") == Str(name)
    && forall i | 0 <= i < k :: !(items[i].Map? && Get(items[i].entries, "name") == Str(name))
  }

  /** The list under `key` has its first item of that name at k, and this is the mapping under `inner` there. */
  predicate IsBodyAt(root: Entries, key: string, name: string, k: nat, inner: string, body: Entries) {
    && Get(root, key).List? && IsFirst(Get(root, key).items, name, k)
    && var found := Get(Get(root, key).items[k].entries, inner);
       if found.Map? then body == found.entries else body == []
  }

  /** The field is this text, or it is missing and the text is empty. */
  predicate IsText(body: Entries, field: string, text: string) {
    Get(body, field) == Str(text) || (Get(body, field) == Null && text == "")
  }

  /** The item is a mapping with another name. */
  predicate IsOther(item: Yaml, current: string) {
    item.Map? && Get(item.entries, "name") != Str(current)
  }

  /** These are the names of all other items, in order; `at` says where they are. */
  predicate AreOthers(items: seq<Yaml>, current: string, names: seq<Yaml>, at: seq<nat>) {
    && |at| == |names| && (at != [] ==> at[|at| - 1] < |items|)
    && (forall j | 0 <= j < |at| ::
          at[j] < |items| && IsOther(items[at[j]], current) && names[j] == Get(items[at[j]].entries, "name"))
    && (forall i, j | 0 <= i < j < |at| :: at[i] < at[j])
    && (forall i | 0 <= i < |items| && IsOther(items[i], current) :: i in at)
  }

  /** Where the current context, its cluster and its user are, their bodies, and where the other contexts are. */
  datatype Place = Place(
    context: nat, cluster: nat, user: nat,
    contextBody: Entries, clusterBody: Entries, userBody: Entries, others: seq<nat>)

  /** What a kubeconfig says of its current context. */
  predicate ReadsAt(doc: Yaml, view: View, p: Place) {
    && doc.Map? && view.doc == doc
    && view.contextName != "" && Get(doc.entries, "current-context") == Str(view.contextName)
    && IsBodyAt(doc.entries, "contexts", view.contextName, p.context, "context", p.contextBody)
    && AreOthers(Get(doc.entries, "contexts").items, view.contextName, view.ignoredContexts, p.others)
    && view.clusterName != "" && Get(p.contextBody, "cluster") == Str(view.clusterName)
    && view.userName != "" && Get(p.contextBody, "user") == Str(view.userName)
    && IsBodyAt(doc.entries, "clusters", view.clusterName, p.cluster, "cluster", p.clusterBody)
    && view.server != "" && Get(p.clusterBody, "server") == Str(view.server)
    && IsText(p.clusterBody, "certificate-authority-data", view.caData)
    && IsBodyAt(doc.entries, "users", view.userName, p.user, "user", p.userBody)
    && IsText(p.userBody, "client-certificate-data", view.certData)
    && IsText(p.userBody, "client-key-data", view.keyData)
  }

  ghost predicate Reads(doc: Yaml, view: View) {
    exists p :: ReadsAt(doc, view, p)
  }

  lemma FirstIsFound(items: seq<Yaml>, name: string, k: nat)
    ensures IsFirst(items, name, k) <==> FindNamed(items, name) == Some(k)
  {
    if IsFirst(items, name, k) {
      assert IsNamed(items[k], name);
      var found := FindNamed(items, name);
      assert found.Some? && !(found.value < k) && !(k < found.value);
    }
  }

  lemma LookupIs(root: Entries, key: string, name: string, k: nat, inner: string, body: Entries)
    requires IsBodyAt(root, key, name, k, inner, body)
    ensures Lookup(root, key, name) == Some(Get(root, key).items[k])
    ensures BodyOf(Get(root, key).items[k], inner) == body
  {
    FirstIsFound(Get(root, key).items, name, k);
  }

  lemma LookupFinds(root: Entries, key: string, name: string, inner: string) returns (k: nat, body: Entries)
    requires Lookup(root, key, name).Some?
    ensures IsBodyAt(root, key, name, k, inner, body)
    ensures Lookup(root, key, name).value == Get(root, key).items[k]
    ensures body == BodyOf(Lookup(root, key, name).value, inner)
  {
    var items := ListOf(Get(root, key)).value;
    k := FindNamed(items, name).value;
    FirstIsFound(items, name, k);
    body := BodyOf(items[k], inner);
  }

  lemma {:induction false} IgnoredSnoc(items: seq<Yaml>, item: Yaml, current: string)
    ensures IgnoredNames(items + [item], current) == IgnoredNames(items, current) + OtherName(item, current)
  {
    var more := items + [item];
    if items == [] {
      assert more[1..] == [];
    } else {
      var a, b, c := OtherName(items[0], current), IgnoredNames(items[1..], current), OtherName(item, current);
      assert more[0] == items[0] && more[1..] == items[1..] + [item];
      IgnoredSnoc(items[1..], item, current);
      assert a + (b + c) == a + b + c;
    }
  }

  lemma OneMoreOther(items: seq<Yaml>, current: string, names: seq<Yaml>, before: seq<nat>)
    requires items != [] && AreOthers(items[..|items| - 1], current, names, before)
    requires IsOther(items[|items| - 1], current)
    ensures AreOthers(items, current, names + [Get(items[|items| - 1].entries, "name")], before + [|items| - 1])
  {
    var n, at := |items| - 1, before + [|items| - 1];
    forall i | 0 <= i < |items| && IsOther(items[i], current)
      ensures i in at
    {
      assert if i < n then items[..n][i] == items[i] else at[|before|] == n;
    }
  }

  lemma NoMoreOther(items: seq<Yaml>, current: string, names: seq<Yaml>, at: seq<nat>)
    requires items != [] && AreOthers(items[..|items| - 1], current, names, at)
    requires !IsOther(items[|items| - 1], current)
    ensures AreOthers(items, current, names, at)
  {
    assert forall i | 0 <= i < |items| - 1 :: items[..|items| - 1][i] == items[i];
  }

  lemma {:induction false} IgnoredAreOthers(items: seq<Yaml>, current: string) returns (at: seq<nat>)
    ensures AreOthers(items, current, IgnoredNames(items, current), at)
  {
    if items == [] {
      at := [];
    } else {
      var n := |items| - 1;
      at := IgnoredAreOthers(items[..n], current);
      assert items == items[..n] + [items[n]];
      IgnoredSnoc(items[..n], items[n], current);
      if IsOther(items[n], current) {
        OneMoreOther(items, current, IgnoredNames(items[..n], current), at);
        at := at + [n];
      } else {
        NoMoreOther(items, current, IgnoredNames(items[..n], current), at);
      }
    }
  }

  /** The last item, if it is one of the others, comes last among them. */
  lemma LastOther(items: seq<Yaml>, current: string, names: seq<Yaml>, at: seq<nat>)
    requires items != [] && AreOthers(items, current, names, at) && IsOther(items[|items| - 1], current)
    ensures at != [] && at[|at| - 1] == |items| - 1
    ensures AreOthers(items[..|items| - 1], current, names[..|at| - 1], at[..|at| - 1])
  {
    var n := |items| - 1;
    var j :| 0 <= j < |at| && at[j] == n;
    var m := |at| - 1;
    var last := at[m];
    if j < m {
      assert false;
    }
    forall i | 0 <= i < n && IsOther(items[..n][i], current)
      ensures i in at[..m]
    {
      var k :| 0 <= k < |at| && at[k] == i;
      assert at[..m][k] == i;
    }
  }

  lemma NoLastOther(items: seq<Yaml>, current: string, names: seq<Yaml>, at: seq<nat>)
    requires items != [] && AreOthers(items, current, names, at) && !IsOther(items[|items| - 1], current)
    ensures AreOthers(items[..|items| - 1], current, names, at)
  {
    forall j | 0 <= j < |at|
      ensures at[j] < |items| - 1
    {
      assert IsOther(items[at[j]], current);
    }
  }

  lemma {:induction false} OthersAreIgnored(items: seq<Yaml>, current: string, names: seq<Yaml>, at: seq<nat>)
    requires AreOthers(items, current, names, at)
    ensures names == IgnoredNames(items, current)
  {
    if items == [] {
      if at != [] {
        assert false;
      }
    } else {
      var n := |items| - 1;
      assert items == items[..n] + [items[n]];
      IgnoredSnoc(items[..n], items[n], current);
      if IsOther(items[n], current) {
        LastOther(items, current, names, at);
        OthersAreIgnored(items[..n], current, names[..|at| - 1], at[..|at| - 1]);
      } else {
        NoLastOther(items, current, names, at);
        OthersAreIgnored(items[..n], current, names, at);
      }
    }
  }

  lemma TextIs(body: Entries, field: string, text: string)
    ensures IsText(body, field, text) <==> StringField(body, field) == Ok(text)
  {
  }

  /** The tests that a document passes on the way to its view. */
  predicate Passes(doc: Yaml, view: View) {
    && doc.Map? && view.doc == doc
    && view.contextName != "" && Get(doc.entries, "current-context") == Str(view.contextName)
    && (var context := Lookup(doc.entries, "contexts", view.contextName);
        && context.Some?
        && view.clusterName != "" && Get(BodyOf(context.value, "context"), "cluster") == Str(view.clusterName)
        && view.userName != "" && Get(BodyOf(context.value, "context"), "user") == Str(view.userName))
    && (var cluster := Lookup(doc.entries, "clusters", view.clusterName);
        && cluster.Some? && view.server != "" && Get(BodyOf(cluster.value, "cluster"), "server") == Str(view.server)
        && IsText(BodyOf(cluster.value, "cluster"), "certificate-authority-data", view.caData))
    && (var user := Lookup(doc.entries, "users", view.userName);
        && user.Some?
        && IsText(BodyOf(user.value, "user"), "client-certificate-data", view.certData)
        && IsText(BodyOf(user.value, "user"), "client-key-data", view.keyData))
    && ListOf(Get(doc.entries, "contexts")).Some?
    && view.ignoredContexts == IgnoredNames(ListOf(Get(doc.entries, "contexts")).value, view.contextName)
  }

  lemma ParsedPasses(doc: Yaml, view: View)
    requires Parse(doc) == Ok(view)
    ensures Passes(doc, view)
  {
  }

  lemma PassedReads(doc: Yaml, view: View)
    requires Passes(doc, view)
    ensures Reads(doc, view)
  {
    var k, context := LookupFinds(doc.entries, "contexts", view.contextName, "context");
    var l, cluster := LookupFinds(doc.entries, "clusters", view.clusterName, "cluster");
    var u, user := LookupFinds(doc.entries, "users", view.userName, "user");
    var at := IgnoredAreOthers(Get(doc.entries, "contexts").items, view.contextName);
    assert ReadsAt(doc, view, Place(k, l, u, context, cluster, user, at));
  }

  lemma ReadPasses(doc: Yaml, view: View, p: Place)
    requires ReadsAt(doc, view, p)
    ensures Passes(doc, view)
  {
    LookupIs(doc.entries, "contexts", view.contextName, p.context, "context", p.contextBody);
    LookupIs(doc.entries, "clusters", view.clusterName, p.cluster, "cluster", p.clusterBody);
    LookupIs(doc.entries, "users", view.userName, p.user, "user", p.userBody);
    OthersAreIgnored(Get(doc.entries, "contexts").items, view.contextName, view.ignoredContexts, p.others);
  }

  lemma PassedIsParsed(doc: Yaml, view: View)
    requires Passes(doc, view)
    ensures Parse(doc) == Ok(view)
  {
    var cluster := Lookup(doc.entries, "clusters", view.clusterName).value;
    var user := Lookup(doc.entries, "users", view.userName).value;
    TextIs(BodyOf(cluster, "cluster"), "certificate-authority-data", view.caData);
    TextIs(BodyOf(user, "user"), "client-certificate-data", view.certData);
    TextIs(BodyOf(user, "user"), "client-key-data", view.keyData);
  }

  /** Which documents parse, and what is read from them, key by key. */
  lemma ParsesExactlyIf(doc: Yaml, view: View)
    ensures Parse(doc) == Ok(view) <==> Reads(doc, view)
  {
    if Parse(doc) == Ok(view) {
      ParsedPasses(doc, view);
      PassedReads(doc, view);
    }
    if p :| ReadsAt(doc, view, p) {
      ReadPasses(doc, view, p);
      PassedIsParsed(doc, view);
    }
  }

  // ---------------------------------------------------------------- patching

  const CA := "certificate-authority-data"
  const TLS_NAME := "tls-server-name"
  const SKIP_VERIFY := "insecure-skip-tls-verify"

  function Endpoint(port: nat): string {
    "https://127.0.0.1:" + Text.Decimal(port)
  }

  /** An https URL of this host with a port in decimal. */
  predicate IsEndpoint(url: string, port: nat) {
    && |url| >= 18 && url[..18] == "https://127.0.0.1:"
    && Text.ReadDecimal(url[18..]) == Some(port)
  }

  lemma EndpointReadsBack(port: nat)
    ensures IsEndpoint(Endpoint(port), port)
  {
    Text.ReadDecimalInvertsDecimal(port);
    assert Endpoint(port)[18..] == Text.Decimal(port);
  }

  function PatchedBody(body: Entries, port: nat, tlsName: Option<string>, insecure: bool): Entries {
    var served := Put(body, "server", Str(Endpoint(port)));
    if insecure then Drop(Drop(Put(served, SKIP_VERIFY, Bool(true)), CA), TLS_NAME)
    else if tlsName.Some? then Put(served, TLS_NAME, Str(tlsName.value))
    else served
  }

  /** The document has a cluster of that name with a body to patch, which parsing guarantees. */
  predicate IsPatchable(doc: Yaml, cluster: string) {
    && doc.Map?
    && Lookup(doc.entries, "clusters", cluster).Some?
    && Get(Lookup(doc.entries, "clusters", cluster).value.entries, "cluster").Map?
  }

  function ClusterItems(doc: Yaml): seq<Yaml> {
    var items := if doc.Map? then ListOf(Get(doc.entries, "clusters")) else None;
    if items.Some? then items.value else []
  }

  /** The position of the cluster entry that parsing and patching look at. */
  function ClusterIndex(doc: Yaml, cluster: string): (k: nat)
    requires IsPatchable(doc, cluster)
    ensures k < |ClusterItems(doc)| && ClusterItems(doc)[k].Map?
  {
    FindNamed(ClusterItems(doc), cluster).value
  }

  function ClusterBody(doc: Yaml, cluster: string): Entries
    requires IsPatchable(doc, cluster)
  {
    BodyOf(ClusterItems(doc)[ClusterIndex(doc, cluster)], "cluster")
  }

  /** The current cluster's entry after the patch. */
  function PatchedEntry(doc: Yaml, cluster: string, port: nat, tlsName: Option<string>, insecure: bool): Yaml
    requires IsPatchable(doc, cluster)
  {
    var body := PatchedBody(ClusterBody(doc, cluster), port, tlsName, insecure);
    Map(Put(ClusterItems(doc)[ClusterIndex(doc, cluster)].entries, "cluster", Map(body)))
  }

  /** The document after patch_view has changed the current cluster's body in place. */
  function PatchDoc(doc: Yaml, cluster: string, port: nat, tlsName: Option<string>, insecure: bool): Yaml
    requires IsPatchable(doc, cluster)
  {
    var items := ClusterItems(doc)[ClusterIndex(doc, cluster) := PatchedEntry(doc, cluster, port, tlsName, insecure)];
    Map(Put(doc.entries, "clusters", List(items)))
  }

  lemma FindNamedUpdate(items: seq<Yaml>, k: nat, entry: Yaml, name: string)
    requires k < |items| && IsNamed(entry, name) == IsNamed(items[k], name)
    ensures FindNamed(items[k := entry], name) == FindNamed(items, name)
  {
    var after := items[k := entry];
    assert forall i | 0 <= i < |items| :: IsNamed(after[i], name) == IsNamed(items[i], name);
    var was, now := FindNamed(items, name), FindNamed(after, name);
    assert now.Some? && was.Some? ==> now.value == was.value;
  }

  /** Everything of a cluster body except what a patch may write or remove. */
  function Unpatched(body: Entries): Entries {
    Drop(Drop(Drop(Drop(body, "server"), SKIP_VERIFY), CA), TLS_NAME)
  }

  lemma PutIsUnpatched(body: Entries, key: string, value: Yaml)
    requires key in {"server", SKIP_VERIFY, CA, TLS_NAME}
    ensures Unpatched(Put(body, key, value)) == Unpatched(body)
  {
    DropPut(body, key, value, "server");
    DropPut(Drop(body, "server"), key, value, SKIP_VERIFY);
    DropPut(Drop(Drop(body, "server"), SKIP_VERIFY), key, value, CA);
    DropPut(Drop(Drop(Drop(body, "server"), SKIP_VERIFY), CA), key, value, TLS_NAME);
  }

  lemma DropIsUnpatched(body: Entries, key: string)
    requires key == CA || key == TLS_NAME
    ensures Unpatched(Drop(body, key)) == Unpatched(body)
  {
    DropCommutes(body, key, "server");
    DropCommutes(Drop(body, "server"), key, SKIP_VERIFY);
    var inner := Drop(Drop(body, "server"), SKIP_VERIFY);
    if key == CA {
      DropTwice(inner, CA);
    } else {
      DropCommutes(inner, TLS_NAME, CA);
      DropTwice(Drop(inner, CA), TLS_NAME);
    }
  }

  /** What a patched cluster body says, key by key, and that its other entries are as they were, in order. */
  lemma PatchedBodySays(body: Entries, port: nat, tlsName: Option<string>, insecure: bool)
    ensures var after := PatchedBody(body, port, tlsName, insecure);
      && Get(after, "server") == Str(Endpoint(port)) && IsEndpoint(Endpoint(port), port)
      && Get(after, "certificate-authority-data")
         == (if insecure then Null else Get(body, "certificate-authority-data"))
      && Get(after, "insecure-skip-tls-verify")
         == (if insecure then Bool(true) else Get(body, "insecure-skip-tls-verify"))
      && Get(after, "tls-server-name")
         == (if insecure then Null else if tlsName.Some? then Str(tlsName.value) else Get(body, "tls-server-name"))
      && Unpatched(after) == Unpatched(body)
  {
    EndpointReadsBack(port);
    var served := Put(body, "server", Str(Endpoint(port)));
    PutIsUnpatched(body, "server", Str(Endpoint(port)));
    forall key: string
      ensures Get(served, key) == if key == "server" then Str(Endpoint(port)) else Get(body, key)
    {
      GetPut(body, "server", Str(Endpoint(port)), key);
    }
    if insecure {
      var skipping := Put(served, SKIP_VERIFY, Bool(true));
      PutIsUnpatched(served, SKIP_VERIFY, Bool(true));
      DropIsUnpatched(skipping, CA);
      DropIsUnpatched(Drop(skipping, CA), TLS_NAME);
      forall key: string
        ensures Get(PatchedBody(body, port, tlsName, insecure), key)
                == if key == CA || key == TLS_NAME then Null
                   else if key == SKIP_VERIFY then Bool(true) else Get(served, key)
      {
        GetPut(served, SKIP_VERIFY, Bool(true), key);
        GetDrop(skipping, CA, key);
        GetDrop(Drop(skipping, CA), TLS_NAME, key);
      }
    } else if tlsName.Some? {
      PutIsUnpatched(served, TLS_NAME, Str(tlsName.value));
      forall key: string
        ensures Get(PatchedBody(body, port, tlsName, insecure), key)
                == if key == TLS_NAME then Str(tlsName.value) else Get(served, key)
      {
        GetPut(served, TLS_NAME, Str(tlsName.value), key);
      }
    }
  }

  lemma PutClusters(root: Entries, items: seq<Yaml>)
    ensures var after := Put(root, "clusters", List(items));
      && Drop(after, "clusters") == Drop(root, "clusters") && Get(after, "clusters") == List(items)
      && forall key: string | key != "clusters" :: Get(after, key) == Get(root, key)
  {
    DropPut(root, "clusters", List(items), "clusters");
    forall key: string
      ensures Get(Put(root, "clusters", List(items)), key) == if key == "clusters" then List(items) else Get(root, key)
    {
      GetPut(root, "clusters", List(items), key);
    }
  }

  lemma PatchedEntrySays(doc: Yaml, cluster: string, port: nat, tlsName: Option<string>, insecure: bool)
    requires IsPatchable(doc, cluster)
    ensures var was := ClusterItems(doc)[ClusterIndex(doc, cluster)].entries;
      var now := PatchedEntry(doc, cluster, port, tlsName, insecure).entries;
      && Get(now, "name") == Get(was, "name") && Drop(now, "cluster") == Drop(was, "cluster")
      && Get(now, "cluster") == Map(PatchedBody(ClusterBody(doc, cluster), port, tlsName, insecure))
  {
    var was := ClusterItems(doc)[ClusterIndex(doc, cluster)].entries;
    var body := Map(PatchedBody(ClusterBody(doc, cluster), port, tlsName, insecure));
    DropPut(was, "cluster", body, "cluster");
    GetPut(was, "cluster", body, "name");
    GetPut(was, "cluster", body, "cluster");
  }

  /**
   Nothing but the current cluster's body changes: every other root key keeps its value and place,
   every other cluster entry is the same, duplicates of the name included, and the entry itself
   keeps everything but its body.
   */
  lemma PatchChangesOneBody(
      doc: Yaml, cluster: string, port: nat, tlsName: Option<string>, insecure: bool)
    requires IsPatchable(doc, cluster)
    ensures var after := PatchDoc(doc, cluster, port, tlsName, insecure);
      var k := ClusterIndex(doc, cluster);
      && after.Map?
      && Drop(after.entries, "clusters") == Drop(doc.entries, "clusters")
      && (forall key: string | key != "clusters" :: Get(after.entries, key) == Get(doc.entries, key))
      && |ClusterItems(after)| == |ClusterItems(doc)|
      && (forall i | 0 <= i < |ClusterItems(doc)| && i != k :: ClusterItems(after)[i] == ClusterItems(doc)[i])
      && ClusterItems(after)[k].Map?
      && Drop(ClusterItems(after)[k].entries, "cluster") == Drop(ClusterItems(doc)[k].entries, "cluster")
      && IsPatchable(after, cluster) && ClusterIndex(after, cluster) == k
      && ClusterBody(after, cluster) == PatchedBody(ClusterBody(doc, cluster), port, tlsName, insecure)
  {
    var k, items := ClusterIndex(doc, cluster), ClusterItems(doc);
    var entry := PatchedEntry(doc, cluster, port, tlsName, insecure);
    PatchedEntrySays(doc, cluster, port, tlsName, insecure);
    PutClusters(doc.entries, items[k := entry]);
    FindNamedUpdate(items, k, entry, cluster);
  }

  lemma ParsedIsPatchable(doc: Yaml)
    requires Parse(doc).Ok?
    ensures var view := Parse(doc).value;
      && view.doc == doc && IsPatchable(doc, view.clusterName)
      && view.caData == (if Get(ClusterBody(doc, view.clusterName), CA).Str?
                         then Get(ClusterBody(doc, view.clusterName), CA).text else "")
      && Get(ClusterBody(doc, view.clusterName), "server") == Str(view.server)
  {
  }

  /** Documents that agree outside the cluster list, and on what is read of the cluster body. */
  predicate ReadsLike(after: Yaml, doc: Yaml, cluster: string, server: string, insecure: bool) {
    && after.Map? && doc.Map?
    && Get(after.entries, "current-context") == Get(doc.entries, "current-context")
    && Get(after.entries, "contexts") == Get(doc.entries, "contexts")
    && Get(after.entries, "users") == Get(doc.entries, "users")
    && IsPatchable(after, cluster)
    && Get(ClusterBody(after, cluster), "server") == Str(server)
    && IsPatchable(doc, cluster)
    && Get(ClusterBody(after, cluster), CA) == (if insecure then Null else Get(ClusterBody(doc, cluster), CA))
  }

  lemma ContextReparses(
      doc: Yaml, after: Yaml, context: Entries, server: string, insecure: bool, current: string)
    requires doc.Map? && ParseContext(doc, current, context).Ok?
    requires ReadsLike(after, doc, ParseContext(doc, current, context).value.clusterName, server, insecure)
    requires server != ""
    ensures var view := ParseContext(doc, current, context).value;
      ParseContext(after, current, context)
      == Ok(view.(doc := after, server := server, caData := if insecure then "" else view.caData))
  {
    var cluster := Get(context, "cluster").text;
    assert Lookup(after.entries, "users", Get(context, "user").text)
           == Lookup(doc.entries, "users", Get(context, "user").text);
    assert BodyOf(Lookup(after.entries, "clusters", cluster).value, "cluster") == ClusterBody(after, cluster);
    assert BodyOf(Lookup(doc.entries, "clusters", cluster).value, "cluster") == ClusterBody(doc, cluster);
  }

  /**
   Parsing the patched document succeeds and gives the same view, except that the server is the
   local endpoint and, when insecure, the CA is gone; ParsesExactlyIf has what a view says.
   */
  lemma PatchedDocumentReparses(doc: Yaml, port: nat, tlsName: Option<string>, insecure: bool)
    requires Parse(doc).Ok?
    ensures var view := Parse(doc).value;
      && IsPatchable(doc, view.clusterName) && IsEndpoint(Endpoint(port), port)
      && var after := PatchDoc(doc, view.clusterName, port, tlsName, insecure);
         Parse(after) == Ok(view.(
           doc := after,
           server := Endpoint(port),
           caData := if insecure then "" else view.caData))
  {
    ParsedIsPatchable(doc);
    EndpointReadsBack(port);
    PatchReparses(doc, Parse(doc).value, port, tlsName, insecure);
  }

  lemma PatchKeepsRoot(doc: Yaml, cluster: string, port: nat, tlsName: Option<string>, insecure: bool)
    requires IsPatchable(doc, cluster)
    ensures var after := PatchDoc(doc, cluster, port, tlsName, insecure);
      && after.Map? && IsPatchable(after, cluster)
      && Get(after.entries, "current-context") == Get(doc.entries, "current-context")
      && Get(after.entries, "contexts") == Get(doc.entries, "contexts")
      && Get(after.entries, "users") == Get(doc.entries, "users")
      && ClusterBody(after, cluster) == PatchedBody(ClusterBody(doc, cluster), port, tlsName, insecure)
  {
    PatchChangesOneBody(doc, cluster, port, tlsName, insecure);
  }

  lemma PatchedBodyServes(body: Entries, port: nat, tlsName: Option<string>, insecure: bool)
    ensures var after := PatchedBody(body, port, tlsName, insecure);
      && Get(after, "server") == Str(Endpoint(port))
      && Get(after, CA) == (if insecure then Null else Get(body, CA))
  {
    PatchedBodySays(body, port, tlsName, insecure);
  }

  lemma PatchedReadsLike(
      doc: Yaml, cluster: string, port: nat, tlsName: Option<string>, insecure: bool)
    requires IsPatchable(doc, cluster)
    ensures ReadsLike(PatchDoc(doc, cluster, port, tlsName, insecure), doc, cluster, Endpoint(port), insecure)
  {
    PatchKeepsRoot(doc, cluster, port, tlsName, insecure);
    PatchedBodyServes(ClusterBody(doc, cluster), port, tlsName, insecure);
  }

  /** Parsing comes down to the context that current-context names. */
  lemma ParseViaContext(doc: Yaml, current: string, context: Yaml)
    requires doc.Map? && current != "" && Get(doc.entries, "current-context") == Str(current)
    requires Lookup(doc.entries, "contexts", current) == Some(context)
    ensures Parse(doc) == ParseContext(doc, current, BodyOf(context, "context"))
  {
  }

  lemma PatchReparses(doc: Yaml, view: View, port: nat, tlsName: Option<string>, insecure: bool)
    requires Parse(doc) == Ok(view) && IsPatchable(doc, view.clusterName)
    ensures var after := PatchDoc(doc, view.clusterName, port, tlsName, insecure);
      Parse(after)
      == Ok(view.(doc := after, server := Endpoint(port), caData := if insecure then "" else view.caData))
  {
    PatchedReadsLike(doc, view.clusterName, port, tlsName, insecure);
    var after := PatchDoc(doc, view.clusterName, port, tlsName, insecure);
    var current := Get(doc.entries, "current-context").text;
    var context := Lookup(doc.entries, "contexts", current).value;
    ParseViaContext(doc, current, context);
    ContextReparses(doc, after, BodyOf(context, "context"), Endpoint(port), insecure, current);
    ParseViaContext(after, current, context);
  }

  /**
   A secure patch leaves TLS verification on if and only if the fetched kubeconfig had not switched
   it off: an insecure-skip-tls-verify that was there before stays.
   */
  lemma SecurePatchVerifiesExactlyIf(doc: Yaml, port: nat, tlsName: string)
    requires Parse(doc).Ok?
    ensures var cluster := Parse(doc).value.clusterName;
      && IsPatchable(doc, cluster)
      && var after := PatchDoc(doc, cluster, port, Some(tlsName), false);
         && IsPatchable(after, cluster)
         && (!Truthy(Get(ClusterBody(after, cluster), SKIP_VERIFY))
             <==> !Truthy(Get(ClusterBody(doc, cluster), SKIP_VERIFY)))
         && Get(ClusterBody(after, cluster), TLS_NAME) == Str(tlsName)
  {
    var cluster := Parse(doc).value.clusterName;
    ParsedIsPatchable(doc);
    PatchChangesOneBody(doc, cluster, port, Some(tlsName), false);
    PatchedBodySays(ClusterBody(doc, cluster), port, Some(tlsName), false);
  }

  /** A small kubeconfig whose cluster has switched verification off. */
  function UnverifiedDoc(): Yaml {
    Map([
      ("current-context", Str("x")),
      ("contexts", List([Map([("name", Str("x")), ("context", Map([("cluster", Str("c")), ("user", Str("u"))]))])])),
      ("clusters", List([Map([
        ("name", Str("c")),
        ("cluster", Map([("server", Str("https://s")), (SKIP_VERIFY, Bool(true))]))])])),
      ("users", List([Map([("name", Str("u")), ("user", Map([]))])]))])
  }

  lemma UnverifiedDocLookups()
    ensures var entries := UnverifiedDoc().entries;
      && Get(entries, "current-context") == Str("x")
      && Lookup(entries, "contexts", "x")
         == Some(Map([("name", Str("x")), ("context", Map([("cluster", Str("c")), ("user", Str("u"))]))]))
      && Lookup(entries, "clusters", "c")
         == Some(Map([("name", Str("c")), ("cluster", Map([("server", Str("https://s")), (SKIP_VERIFY, Bool(true))]))]))
      && Lookup(entries, "users", "u") == Some(Map([("name", Str("u")), ("user", Map([]))]))
  {
  }

  lemma UnverifiedDocParses()
    ensures Parse(UnverifiedDoc()).Ok?
  {
    UnverifiedDocLookups();
  }

  /** It stays off after a secure patch, whatever name the patch sets. */
  lemma SecurePatchKeepsItOff(port: nat, tlsName: string)
    ensures Parse(UnverifiedDoc()).Ok?
    ensures var cluster := Parse(UnverifiedDoc()).value.clusterName;
      && IsPatchable(UnverifiedDoc(), cluster)
      && var after := PatchDoc(UnverifiedDoc(), cluster, port, Some(tlsName), false);
         IsPatchable(after, cluster) && Truthy(Get(ClusterBody(after, cluster), SKIP_VERIFY))
  {
    UnverifiedDocParses();
    UnverifiedDocLookups();
    SecurePatchVerifiesExactlyIf(UnverifiedDoc(), port, tlsName);
  }

  /** The live view whose document patch_view changes. */
  class KubeconfigView {
    var doc: Yaml
    const view: View

    constructor (view: View)
      ensures this.view == view && doc == view.doc
    {
      this.view := view;
      doc := view.doc;
    }

    method PatchView(port: nat, tlsName: Option<string>, insecure: bool)
      requires IsPatchable(doc, view.clusterName)
      modifies this
      ensures doc == PatchDoc(old(doc), view.clusterName, port, tlsName, insecure)
    {
      var k := ClusterIndex(doc, view.clusterName);
      var items := ClusterItems(doc);
      var body := Get(items[k].entries, "cluster").entries;
      body := Put(body, "server", Str(Endpoint(port)));
      if insecure {
        body := Put(body, SKIP_VERIFY, Bool(true));
        body := Drop(body, CA);
        body := Drop(body, TLS_NAME);
      } else if tlsName.Some? {
        body := Put(body, TLS_NAME, Str(tlsName.value));
      }
      var entry := Map(Put(items[k].entries, "cluster", Map(body)));
      doc := Map(Put(doc.entries, "clusters", List(items[k := entry])));
    }
  }
}
