/**
 kube.py: the per-target loop of one node. Every call into the network or a library is an answer
 given from outside; asyncssh errors, which the loop does not catch, abort it.
 */
module KubeTargets {
  import opened Wrappers
  import opened Kubeconfig
  import Forwards

  datatype KubeTarget = KubeTarget(
    name: string,
    tlsServerName: Option<string>,
    insecureFallback: bool,
    required: bool)

  /** Reading the remote kubeconfig: a caught error (OSError, timeout, bad YAML), an uncaught one, or a document. */
  datatype Fetched = Caught(error: string) | Uncaught(error: string) | Document(doc: Yaml)

  datatype Sans = Sans(dns: seq<string>, ips: seq<string>)

  /** What the world answers for one target; `host` is None when the server URL is unusable. */
  datatype Answer = Answer(
    fetched: Fetched,
    host: Option<string>,
    forward: Result<nat, string>,
    probe: Result<Sans, string>)

  datatype KubeOutput = KubeOutput(
    clusterName: string,
    contextName: string,
    localPort: nat,
    endpoint: string,
    tlsServerName: Option<string>,
    caData: string,
    certData: string,
    keyData: string,
    content: Yaml,
    path: Option<string>)

  datatype Notice =
    | TargetFailed(name: string)
    | IgnoredContext(name: string, context: Yaml)
    | VerificationDisabled(name: string)
    | FellBack(name: string, chosen: string)

  // ---------------------------------------------------------------- TLS names

  /** choose_tls_server_name: the name, and whether it differs from the original host. */
  function ChooseTlsServerName(host: string, sans: Sans): (r: (Option<string>, bool))
    ensures r.0.None? <==> sans.dns == [] && sans.ips == []
    ensures r.0.Some? ==> r.0.value in sans.dns || r.0.value in sans.ips
    ensures !r.1 <==> r.0 == Some(host)
    ensures host in sans.dns || host in sans.ips ==> r.0 == Some(host)
    ensures r.0.Some? && r.1 && sans.dns != [] ==> r.0.value == sans.dns[0]
    ensures r.0.Some? && r.1 && sans.dns == [] ==> r.0.value == sans.ips[0]
  {
    if host in sans.dns || host in sans.ips then (Some(host), false)
    else if sans.dns != [] then (Some(sans.dns[0]), true)
    else if sans.ips != [] then (Some(sans.ips[0]), true)
    else (None, true)
  }

  /** _resolve_tls: name, insecure, and the warnings it adds; an error is the probe's own. */
  function ResolveTls(target: KubeTarget, host: string, probe: Result<Sans, string>)
    : Result<(Option<string>, bool, seq<Notice>), string>
  {
    if target.tlsServerName.Some? then Ok((target.tlsServerName, false, []))
    else
      match probe
      case Err(e) => Err(e)
      case Ok(sans) =>
        var (chosen, fellBack) := ChooseTlsServerName(host, sans);
        if chosen.None? then
          if target.insecureFallback then Ok((None, true, [VerificationDisabled(target.name)]))
          else Ok((None, false, []))
        else Ok((chosen, false, if fellBack then [FellBack(target.name, chosen.value)] else []))
  }

  // ---------------------------------------------------------------- one target

  predicate Parses(answer: Answer) {
    answer.fetched.Document? && Parse(answer.fetched.doc).Ok?
  }

  /** An error that the loop does not catch reaches the node. */
  predicate Aborts(target: KubeTarget, answer: Answer) {
    || answer.fetched.Uncaught?
    || (Parses(answer) && answer.host.Some?
        && (answer.forward.Err? || (target.tlsServerName.None? && answer.probe.Err?)))
  }

  /** Reading raises; or the kubeconfig can be read and its server dialled, and then the forward or the probe raises. */
  lemma AbortsExactlyIf(target: KubeTarget, answer: Answer)
    ensures Aborts(target, answer) <==>
      match answer.fetched
      case Uncaught(_) => true
      case Caught(_) => false
      case Document(doc) =>
        && answer.host.Some? && (exists view :: Reads(doc, view))
        && (answer.forward.Err? || (target.tlsServerName.None? && answer.probe.Err?))
  {
    if answer.fetched.Document? {
      var doc := answer.fetched.doc;
      if Parse(doc).Ok? {
        ParsesExactlyIf(doc, Parse(doc).value);
      }
      if view :| Reads(doc, view) {
        ParsesExactlyIf(doc, view);
      }
    }
  }

  /** Where an error ends the loop, the listener that the target may have got by then is left open. */
  function LeftListening(target: KubeTarget, answer: Answer): seq<string> {
    if Parses(answer) && answer.host.Some? && answer.forward.Ok? then [target.name] else []
  }

  predicate HasUsableName(target: KubeTarget, answer: Answer) {
    || target.tlsServerName.Some?
    || (answer.probe.Ok? && (answer.probe.value.dns != [] || answer.probe.value.ips != []))
    || target.insecureFallback
  }

  /** The target yields an output: its kubeconfig parses, its server is usable, and so is some TLS name. */
  predicate Succeeds(target: KubeTarget, answer: Answer) {
    !Aborts(target, answer) && Parses(answer) && answer.host.Some? && HasUsableName(target, answer)
  }

  function OutputOf(target: KubeTarget, answer: Answer): (o: KubeOutput)
    requires Succeeds(target, answer)
    ensures o.tlsServerName.None? ==> target.tlsServerName.None? && target.insecureFallback && o.caData == ""
    ensures target.tlsServerName.Some? ==> o.tlsServerName == target.tlsServerName
    ensures o.localPort == answer.forward.value
  {
    var view := Parse(answer.fetched.doc).value;
    ParsedIsPatchable(answer.fetched.doc);
    var (tlsName, insecure, _) := ResolveTls(target, answer.host.value, answer.probe).value;
    KubeOutput(
      view.clusterName, view.contextName, answer.forward.value, Endpoint(answer.forward.value),
      if insecure then None else tlsName, if insecure then "" else view.caData, view.certData, view.keyData,
      PatchDoc(view.doc, view.clusterName, answer.forward.value, tlsName, insecure), None)
  }

  /** What a consumer reads from the kubeconfig that an output carries, key by key. */
  ghost predicate AgreesWithContent(o: KubeOutput) {
    && (exists view :: Reads(o.content, view) && SaysTheSame(o, view))
    && IsEndpoint(o.endpoint, o.localPort) && IsPatchable(o.content, o.clusterName)
    && var body := ClusterBody(o.content, o.clusterName);
       && Get(body, "tls-server-name") == (if o.tlsServerName.Some? then Str(o.tlsServerName.value) else Null)
       && (o.tlsServerName.None? ==>
             Get(body, "insecure-skip-tls-verify") == Bool(true) && Get(body, "certificate-authority-data") == Null)
  }

  /** Where a record's file lies is no part of what it says. */
  lemma PathIsNoContent(o: KubeOutput, placed: KubeOutput)
    requires AgreesWithContent(o) && placed.(path := None) == o.(path := None)
    ensures AgreesWithContent(placed)
  {
    var view :| Reads(o.content, view) && SaysTheSame(o, view);
    assert SaysTheSame(placed, view);
  }

  predicate SaysTheSame(o: KubeOutput, view: View) {
    && view.clusterName == o.clusterName && view.contextName == o.contextName && view.server == o.endpoint
    && view.caData == o.caData && view.certData == o.certData && view.keyData == o.keyData
  }

  /** The TLS name for the target: the one asked for, else the host, the first DNS name or the first address. */
  predicate IsTlsName(target: KubeTarget, answer: Answer, name: Option<string>) {
    if target.tlsServerName.Some? then name == target.tlsServerName
    else
      && answer.probe.Ok? && answer.host.Some?
      && match name
         case None => NoNames(answer) && target.insecureFallback
         case Some(n) =>
           if InSans(answer, answer.host.value) then n == answer.host.value
           else if answer.probe.value.dns != [] then n == answer.probe.value.dns[0]
           else answer.probe.value.ips != [] && n == answer.probe.value.ips[0]
  }

  predicate NoNames(answer: Answer)
    requires answer.probe.Ok?
  {
    answer.probe.value.dns == [] && answer.probe.value.ips == []
  }

  predicate InSans(answer: Answer, name: string)
    requires answer.probe.Ok?
  {
    name in answer.probe.value.dns || name in answer.probe.value.ips
  }

  /** The record of a target: what its fetched kubeconfig says of the current context, behind the local port. */
  ghost predicate IsRecordOf(o: KubeOutput, target: KubeTarget, answer: Answer) {
    && answer.fetched.Document? && answer.forward.Ok?
    && (exists view :: Reads(answer.fetched.doc, view) && IsTakenFrom(o, view))
    && o.localPort == answer.forward.value && IsTlsName(target, answer, o.tlsServerName) && o.path.None?
  }

  predicate IsTakenFrom(o: KubeOutput, view: View) {
    && o.clusterName == view.clusterName && o.contextName == view.contextName
    && o.certData == view.certData && o.keyData == view.keyData
    && o.caData == if o.tlsServerName.None? then "" else view.caData
  }

  lemma OutputIsRecord(target: KubeTarget, answer: Answer)
    requires Succeeds(target, answer)
    ensures IsRecordOf(OutputOf(target, answer), target, answer)
  {
    var view := Parse(answer.fetched.doc).value;
    ParsesExactlyIf(answer.fetched.doc, view);
    assert IsTakenFrom(OutputOf(target, answer), view);
  }

  /** The returned record says exactly what its patched document says. */
  lemma OutputAgreesWithContent(target: KubeTarget, answer: Answer)
    requires Succeeds(target, answer)
    ensures AgreesWithContent(OutputOf(target, answer))
  {
    var doc := answer.fetched.doc;
    var view := Parse(doc).value;
    var port := answer.forward.value;
    var (tlsName, insecure, _) := ResolveTls(target, answer.host.value, answer.probe).value;
    ParsedIsPatchable(doc);
    PatchedDocumentReparses(doc, port, tlsName, insecure);
    PatchChangesOneBody(doc, view.clusterName, port, tlsName, insecure);
    PatchedBodySays(ClusterBody(doc, view.clusterName), port, tlsName, insecure);
    var after := PatchDoc(doc, view.clusterName, port, tlsName, insecure);
    var now := Parse(after).value;
    ParsesExactlyIf(after, now);
    assert SaysTheSame(OutputOf(target, answer), now);
  }

  // ---------------------------------------------------------------- all targets of a node

  predicate HasDistinctNames(targets: seq<KubeTarget>) {
    forall i, j | 0 <= i < j < |targets| :: targets[i].name != targets[j].name
  }

  predicate NoneAborts(targets: seq<KubeTarget>, answers: seq<Answer>)
    requires |answers| == |targets|
  {
    forall i | 0 <= i < |targets| :: !Aborts(targets[i], answers[i])
  }

  function IgnoredNotices(name: string, contexts: seq<Yaml>): seq<Notice> {
    seq(|contexts|, i requires 0 <= i < |contexts| => IgnoredContext(name, contexts[i]))
  }

  /** The warnings of one target, in the order in which they are added. */
  function NoticesOf(target: KubeTarget, answer: Answer): seq<Notice>
    requires !Aborts(target, answer)
  {
    if !Parses(answer) then [TargetFailed(target.name)]
    else
      IgnoredNotices(target.name, Parse(answer.fetched.doc).value.ignoredContexts)
      + if answer.host.None? then [TargetFailed(target.name)]
        else
          var (tlsName, insecure, added) := ResolveTls(target, answer.host.value, answer.probe).value;
          added + if tlsName.None? && !insecure then [TargetFailed(target.name)] else []
  }

  /** What becomes of one target: its output if any, its warnings, and whether a listener was opened for it. */
  datatype Verdict = Verdict(output: Option<KubeOutput>, notices: seq<Notice>, listens: bool)

  function Judge(target: KubeTarget, answer: Answer): Verdict
    requires !Aborts(target, answer)
  {
    Verdict(
      if Succeeds(target, answer) then Some(OutputOf(target, answer)) else None,
      NoticesOf(target, answer),
      Parses(answer) && answer.host.Some?)
  }

  /** A failure is reported exactly when there is no output, and an output has a listener behind it. */
  ghost predicate IsSound(name: string, verdict: Verdict) {
    && (forall other :: TargetFailed(other) in verdict.notices <==> other == name && verdict.output.None?)
    && (verdict.output.Some? ==> verdict.listens)
  }

  /** The server certificate decides on the name: no name was asked for, and the target got as far as the probe. */
  predicate IsProbed(target: KubeTarget, answer: Answer) {
    Parses(answer) && answer.host.Some? && answer.forward.Ok? && target.tlsServerName.None? && answer.probe.Ok?
  }

  /** The other warnings of a target, each exactly when it is due. */
  ghost predicate HasWarnings(target: KubeTarget, answer: Answer, notices: seq<Notice>) {
    && (forall name, chosen :: FellBack(name, chosen) in notices <==>
          && name == target.name && IsProbed(target, answer) && !NoNames(answer)
          && !InSans(answer, answer.host.value) && IsTlsName(target, answer, Some(chosen)))
    && (forall name :: VerificationDisabled(name) in notices <==>
          name == target.name && IsProbed(target, answer) && NoNames(answer) && target.insecureFallback)
    && (forall name, context :: IgnoredContext(name, context) in notices <==>
          name == target.name && Parses(answer) && context in Parse(answer.fetched.doc).value.ignoredContexts)
    && (forall i, j | 0 <= i < j < |notices| && notices[j].IgnoredContext? :: notices[i].IgnoredContext?)
  }

  lemma IgnoredNoticesAre(name: string, contexts: seq<Yaml>, notice: Notice)
    ensures notice in IgnoredNotices(name, contexts) <==>
      notice.IgnoredContext? && notice.name == name && notice.context in contexts
  {
    var notices := IgnoredNotices(name, contexts);
    if notice.IgnoredContext? && notice.name == name && notice.context in contexts {
      var i :| 0 <= i < |contexts| && contexts[i] == notice.context;
      assert notices[i] == notice;
    }
  }

  lemma WarningsAreExact(target: KubeTarget, answer: Answer)
    requires !Aborts(target, answer)
    ensures HasWarnings(target, answer, NoticesOf(target, answer))
  {
    if Parses(answer) {
      forall notice
        ensures notice in IgnoredNotices(target.name, Parse(answer.fetched.doc).value.ignoredContexts) <==>
          notice.IgnoredContext? && notice.name == target.name
          && notice.context in Parse(answer.fetched.doc).value.ignoredContexts
      {
        IgnoredNoticesAre(target.name, Parse(answer.fetched.doc).value.ignoredContexts, notice);
      }
    }
  }

  lemma FailuresAreReported(target: KubeTarget, answer: Answer)
    requires !Aborts(target, answer)
    ensures IsSound(target.name, Judge(target, answer))
  {
    if Parses(answer) {
      var ignored := IgnoredNotices(target.name, Parse(answer.fetched.doc).value.ignoredContexts);
      assert forall i | 0 <= i < |ignored| :: ignored[i].IgnoredContext?;
    }
  }

  lemma VerdictsAreSound(target: KubeTarget, answer: Answer)
    requires !Aborts(target, answer)
    ensures IsSound(target.name, Judge(target, answer)) && HasWarnings(target, answer, Judge(target, answer).notices)
    ensures Judge(target, answer).output.Some? <==> Succeeds(target, answer)
    ensures Judge(target, answer).output.Some? ==>
      && AgreesWithContent(Judge(target, answer).output.value)
      && IsRecordOf(Judge(target, answer).output.value, target, answer)
  {
    FailuresAreReported(target, answer);
    WarningsAreExact(target, answer);
    if Succeeds(target, answer) {
      OutputAgreesWithContent(target, answer);
      OutputIsRecord(target, answer);
    }
  }

  /** All that the loop has produced and done: its three results and the listeners it opened and closed. */
  datatype Account = Account(
    outputs: seq<(string, KubeOutput)>,
    failures: seq<string>,
    notices: seq<Notice>,
    listening: seq<string>,
    closed: seq<string>)

  function ListenerOf(target: KubeTarget, verdict: Verdict): seq<string> {
    if verdict.listens then [target.name] else []
  }

  /** A listener that was opened in vain is closed again. */
  function ClosedFor(target: KubeTarget, verdict: Verdict): seq<string> {
    if verdict.output.None? then ListenerOf(target, verdict) else []
  }

  function Extend(account: Account, target: KubeTarget, verdict: Verdict): Account {
    Account(
      if verdict.output.Some? then account.outputs + [(target.name, verdict.output.value)] else account.outputs,
      if verdict.output.None? && target.required then account.failures + [target.name] else account.failures,
      account.notices + verdict.notices,
      account.listening + ListenerOf(target, verdict),
      account.closed + ClosedFor(target, verdict))
  }

  /** The account of the targets, taken in order. */
  function AccountOf(targets: seq<KubeTarget>, verdicts: seq<Verdict>): Account
    requires |verdicts| == |targets|
  {
    if targets == [] then Account([], [], [], [], [])
    else
      var k := |targets| - 1;
      Extend(AccountOf(targets[..k], verdicts[..k]), targets[k], verdicts[k])
  }

  function Verdicts(targets: seq<KubeTarget>, answers: seq<Answer>): (verdicts: seq<Verdict>)
    requires |answers| == |targets| && NoneAborts(targets, answers)
    ensures |verdicts| == |targets|
    ensures forall i | 0 <= i < |targets| :: verdicts[i] == Judge(targets[i], answers[i])
  {
    seq(|targets|, i requires 0 <= i < |targets| => Judge(targets[i], answers[i]))
  }

  /** The second half of the loop body, for a kubeconfig that parses and a server that is usable. */
  method ForwardTarget(conn: Forwards.Connection, target: KubeTarget, answer: Answer)
    returns (r: Result<(Option<KubeOutput>, seq<Notice>), string>)
    requires Parses(answer) && answer.host.Some?
    modifies conn
    ensures r.Ok? <==> !Aborts(target, answer)
    ensures r.Ok? ==>
      && r.value.0 == (if Succeeds(target, answer) then Some(OutputOf(target, answer)) else None)
      && r.value.1 == NoticesOf(target, answer)
      && conn.started == old(conn.started) + [target.name]
      && conn.closed == old(conn.closed) + (if Succeeds(target, answer) then [] else [target.name])
    ensures r.Err? ==>
      conn.started == old(conn.started) + LeftListening(target, answer) && conn.closed == old(conn.closed)
    ensures conn.isClosed == old(conn.isClosed)
  {
    var view := Parse(answer.fetched.doc).value;
    var notices := IgnoredNotices(target.name, view.ignoredContexts);
    if answer.forward.Err? {
      return Err(answer.forward.error);
    }
    conn.started := conn.started + [target.name];
    var port := answer.forward.value;
    var tls := ResolveTls(target, answer.host.value, answer.probe);
    if tls.Err? {
      return Err(tls.error);
    }
    var (tlsName, insecure, added) := tls.value;
    if tlsName.None? && !insecure {
      conn.closed := conn.closed + [target.name];
      return Ok((None, notices + (added + [TargetFailed(target.name)])));
    }
    var live := new KubeconfigView(view);
    ParsedIsPatchable(answer.fetched.doc);
    live.PatchView(port, tlsName, insecure);
    var output := KubeOutput(
      view.clusterName, view.contextName, port, Endpoint(port),
      if insecure then None else tlsName, if insecure then "" else view.caData, view.certData, view.keyData,
      live.doc, None);
    r := Ok((Some(output), notices + added));
  }

  /** The loop body: one target's verdict, or an error that ends the loop. */
  method ServeTarget(conn: Forwards.Connection, target: KubeTarget, answer: Answer)
    returns (r: Result<(Option<KubeOutput>, seq<Notice>), string>)
    modifies conn
    ensures r.Ok? <==> !Aborts(target, answer)
    ensures r.Ok? ==>
      && r.value == (Judge(target, answer).output, Judge(target, answer).notices)
      && conn.started == old(conn.started) + ListenerOf(target, Judge(target, answer))
      && conn.closed == old(conn.closed) + ClosedFor(target, Judge(target, answer))
    ensures r.Err? ==>
      conn.started == old(conn.started) + LeftListening(target, answer) && conn.closed == old(conn.closed)
    ensures conn.isClosed == old(conn.isClosed)
  {
    if answer.fetched.Uncaught? {
      return Err(answer.fetched.error);
    }
    if answer.fetched.Caught? || Parse(answer.fetched.doc).Err? {
      return Ok((None, [TargetFailed(target.name)]));
    }
    if answer.host.None? {
      var view := Parse(answer.fetched.doc).value;
      return Ok((None, IgnoredNotices(target.name, view.ignoredContexts) + [TargetFailed(target.name)]));
    }
    r := ForwardTarget(conn, target, answer);
  }

  datatype KubeRun = KubeRun(outputs: seq<(string, KubeOutput)>, failures: seq<string>, notices: seq<Notice>)

  /** The three results of the loop. */
  function RunOf(account: Account): KubeRun {
    KubeRun(account.outputs, account.failures, account.notices)
  }

  /** The three results after one more target. */
  function Taken(run: KubeRun, target: KubeTarget, verdict: Verdict): KubeRun {
    KubeRun(
      if verdict.output.Some? then run.outputs + [(target.name, verdict.output.value)] else run.outputs,
      if verdict.output.None? && target.required then run.failures + [target.name] else run.failures,
      run.notices + verdict.notices)
  }

  /** One turn of the loop: the next target's verdict goes into the three results. */
  method ServeInto(conn: Forwards.Connection, target: KubeTarget, answer: Answer, run: KubeRun)
    returns (r: Result<KubeRun, string>)
    modifies conn
    ensures r.Ok? <==> !Aborts(target, answer)
    ensures r.Ok? ==>
      && r.value == Taken(run, target, Judge(target, answer))
      && conn.started == old(conn.started) + ListenerOf(target, Judge(target, answer))
      && conn.closed == old(conn.closed) + ClosedFor(target, Judge(target, answer))
    ensures r.Err? ==>
      conn.started == old(conn.started) + LeftListening(target, answer) && conn.closed == old(conn.closed)
    ensures conn.isClosed == old(conn.isClosed)
  {
    var served := ServeTarget(conn, target, answer);
    if served.Err? {
      return Err(served.error);
    }
    var (output, notices) := served.value;
    if output.Some? {
      r := Ok(KubeRun(run.outputs + [(target.name, output.value)], run.failures, run.notices + notices));
    } else {
      var failures := if target.required then run.failures + [target.name] else run.failures;
      r := Ok(KubeRun(run.outputs, failures, run.notices + notices));
    }
  }

  lemma TakenIsExtended(account: Account, target: KubeTarget, verdict: Verdict, before: seq<string>)
    ensures Taken(RunOf(account), target, verdict) == RunOf(Extend(account, target, verdict))
    ensures before + account.listening + ListenerOf(target, verdict)
            == before + Extend(account, target, verdict).listening
    ensures before + account.closed + ClosedFor(target, verdict) == before + Extend(account, target, verdict).closed
  {
  }

  /** The k-th target is the first to raise, and this is what was opened and closed until then. */
  ghost predicate RaisesAt(
      targets: seq<KubeTarget>, answers: seq<Answer>, k: nat,
      started0: seq<string>, started: seq<string>, closed0: seq<string>, closed: seq<string>)
    requires |answers| == |targets| && k < |targets|
  {
    && NoneAborts(targets[..k], answers[..k]) && Aborts(targets[k], answers[k])
    && var account := AccountOf(targets[..k], Verdicts(targets[..k], answers[..k]));
       && started == started0 + account.listening + LeftListening(targets[k], answers[k])
       && closed == closed0 + account.closed
  }

  lemma NoneAbortsSoFar(targets: seq<KubeTarget>, answers: seq<Answer>, i: nat)
    requires |answers| == |targets| && i < |targets|
    requires NoneAborts(targets[..i], answers[..i]) && !Aborts(targets[i], answers[i])
    ensures NoneAborts(targets[..i + 1], answers[..i + 1])
  {
    var some, given := targets[..i + 1], answers[..i + 1];
    forall j | 0 <= j <= i
      ensures !Aborts(some[j], given[j])
    {
      assert j < i ==> targets[j] == targets[..i][j] && answers[j] == answers[..i][j];
    }
  }

  lemma AccountGrows(targets: seq<KubeTarget>, answers: seq<Answer>, i: nat)
    requires |answers| == |targets| && i < |targets|
    requires NoneAborts(targets[..i], answers[..i]) && !Aborts(targets[i], answers[i])
    ensures NoneAborts(targets[..i + 1], answers[..i + 1])
    ensures AccountOf(targets[..i + 1], Verdicts(targets[..i + 1], answers[..i + 1]))
            == Extend(AccountOf(targets[..i], Verdicts(targets[..i], answers[..i])),
                      targets[i], Judge(targets[i], answers[i]))
  {
    var some, given := targets[..i + 1], answers[..i + 1];
    assert some[..i] == targets[..i] && given[..i] == answers[..i];
    NoneAbortsSoFar(targets, answers, i);
    assert Verdicts(some, given)[..i] == Verdicts(targets[..i], answers[..i]);
  }

  /**
   run_kube_targets: it raises exactly when some target meets an error that is not caught.
   Otherwise the outputs, the required failures, the warnings and the listeners opened and closed
   are those of the targets' account. When it raises, the account is that of the targets before, and
   the raising target's own listener stays open if it had got one.
   */
  method RunKubeTargets(conn: Forwards.Connection, targets: seq<KubeTarget>, answers: seq<Answer>)
    returns (r: Result<KubeRun, string>)
    requires |answers| == |targets|
    modifies conn
    ensures r.Ok? <==> NoneAborts(targets, answers)
    ensures r.Ok? ==> var account := AccountOf(targets, Verdicts(targets, answers));
      && r.value == RunOf(account)
      && conn.started == old(conn.started) + account.listening
      && conn.closed == old(conn.closed) + account.closed
    ensures r.Err? ==>
      exists k: nat | k < |targets| ::
        RaisesAt(targets, answers, k, old(conn.started), conn.started, old(conn.closed), conn.closed)
    ensures conn.isClosed == old(conn.isClosed)
  {
    var run := KubeRun([], [], []);
    ghost var account := Account([], [], [], [], []);
    for i := 0 to |targets|
      invariant NoneAborts(targets[..i], answers[..i])
      invariant account == AccountOf(targets[..i], Verdicts(targets[..i], answers[..i]))
      invariant run == RunOf(account)
      invariant conn.started == old(conn.started) + account.listening
      invariant conn.closed == old(conn.closed) + account.closed
      invariant conn.isClosed == old(conn.isClosed)
    {
      var served := ServeInto(conn, targets[i], answers[i], run);
      if served.Err? {
        assert RaisesAt(targets, answers, i, old(conn.started), conn.started, old(conn.closed), conn.closed);
        return Err(served.error);
      }
      AccountGrows(targets, answers, i);
      TakenIsExtended(account, targets[i], Judge(targets[i], answers[i]), old(conn.started));
      TakenIsExtended(account, targets[i], Judge(targets[i], answers[i]), old(conn.closed));
      run, account := served.value, Extend(account, targets[i], Judge(targets[i], answers[i]));
    }
    assert targets[..|targets|] == targets && answers[..|targets|] == answers;
    r := Ok(run);
  }

  // ---------------------------------------------------------------- what the account means

  function NamesOf(outputs: seq<(string, KubeOutput)>): seq<string> {
    seq(|outputs|, i requires 0 <= i < |outputs| => outputs[i].0)
  }

  /** Where a target's name shows up in an account. */
  datatype Standing = Standing(served: bool, listed: bool, reported: bool, listened: nat, closed: nat)

  ghost function StandingOf(account: Account, name: string): Standing {
    Standing(
      name in NamesOf(account.outputs),
      name in account.failures,
      TargetFailed(name) in account.notices,
      multiset(account.listening)[name],
      multiset(account.closed)[name])
  }

  /** Taking in one more target touches the standing of its own name only. */
  lemma ExtendStanding(account: Account, target: KubeTarget, verdict: Verdict, name: string)
    requires IsSound(target.name, verdict)
    ensures var was, now := StandingOf(account, name), StandingOf(Extend(account, target, verdict), name);
      if name != target.name then now == was
      else now == Standing(
        was.served || verdict.output.Some?,
        was.listed || (target.required && verdict.output.None?),
        was.reported || verdict.output.None?,
        was.listened + (if verdict.listens then 1 else 0),
        was.closed + (if verdict.listens && verdict.output.None? then 1 else 0))
  {
    assert NamesOf(Extend(account, target, verdict).outputs)
           == NamesOf(account.outputs) + (if verdict.output.Some? then [target.name] else []);
  }

  lemma {:induction false} AbsentFromAccount(targets: seq<KubeTarget>, verdicts: seq<Verdict>, name: string)
    requires |verdicts| == |targets|
    requires forall i | 0 <= i < |targets| :: targets[i].name != name && IsSound(targets[i].name, verdicts[i])
    ensures StandingOf(AccountOf(targets, verdicts), name) == Standing(false, false, false, 0, 0)
  {
    if targets != [] {
      var k := |targets| - 1;
      AbsentFromAccount(targets[..k], verdicts[..k], name);
      ExtendStanding(AccountOf(targets[..k], verdicts[..k]), targets[k], verdicts[k], name);
    }
  }

  function ExpectedStanding(target: KubeTarget, verdict: Verdict): Standing {
    Standing(
      verdict.output.Some?,
      target.required && verdict.output.None?,
      verdict.output.None?,
      if verdict.listens then 1 else 0,
      if verdict.listens && verdict.output.None? then 1 else 0)
  }

  lemma {:induction false} VerdictIsAccountedFor(targets: seq<KubeTarget>, verdicts: seq<Verdict>, i: nat)
    requires |verdicts| == |targets| && i < |targets|
    requires forall j | 0 <= j < |targets| :: IsSound(targets[j].name, verdicts[j])
    requires forall j | 0 <= j < |targets| && j != i :: targets[j].name != targets[i].name
    ensures StandingOf(AccountOf(targets, verdicts), targets[i].name) == ExpectedStanding(targets[i], verdicts[i])
  {
    var k := |targets| - 1;
    var account := AccountOf(targets[..k], verdicts[..k]);
    assert AccountOf(targets, verdicts) == Extend(account, targets[k], verdicts[k]);
    if i < k {
      VerdictIsAccountedFor(targets[..k], verdicts[..k], i);
      ExtendStanding(account, targets[k], verdicts[k], targets[i].name);
    } else {
      AbsentFromAccount(targets[..k], verdicts[..k], targets[k].name);
      ExtendStanding(account, targets[k], verdicts[k], targets[k].name);
    }
  }

  /**
   Each target is accounted for exactly once: either it has an output, or its failure is reported;
   it is listed as a required failure if and only if it is required and has no output; and it has
   exactly one open listener if it has an output, and none otherwise.
   */
  lemma TargetIsAccountedFor(targets: seq<KubeTarget>, answers: seq<Answer>, i: nat)
    requires |answers| == |targets| && HasDistinctNames(targets) && NoneAborts(targets, answers)
    requires i < |targets|
    ensures var standing := StandingOf(AccountOf(targets, Verdicts(targets, answers)), targets[i].name);
      && standing.served == Succeeds(targets[i], answers[i])
      && standing.reported == !standing.served
      && standing.listed == (targets[i].required && !standing.served)
      && standing.listened - standing.closed == (if standing.served then 1 else 0)
      && standing.listened <= 1
  {
    forall j | 0 <= j < |targets|
      ensures IsSound(targets[j].name, Verdicts(targets, answers)[j])
    {
      VerdictsAreSound(targets[j], answers[j]);
    }
    VerdictsAreSound(targets[i], answers[i]);
    VerdictIsAccountedFor(targets, Verdicts(targets, answers), i);
  }

  function TargetNames(targets: seq<KubeTarget>): (names: seq<string>)
    ensures |names| == |targets|
  {
    seq(|targets|, i requires 0 <= i < |targets| => targets[i].name)
  }

  lemma TargetNamesSnoc(targets: seq<KubeTarget>)
    requires targets != []
    ensures TargetNames(targets) == TargetNames(targets[..|targets| - 1]) + [targets[|targets| - 1].name]
  {
  }

  /** A target is taken in: it gets an output, or it is listed as failed, or neither. */
  lemma ExtendLists(account: Account, target: KubeTarget, verdict: Verdict)
    ensures var extended := Extend(account, target, verdict);
      && extended.outputs
         == account.outputs + (if verdict.output.Some? then [(target.name, verdict.output.value)] else [])
      && extended.failures
         == account.failures + (if verdict.output.None? && target.required then [target.name] else [])
  {
  }

  /** The k-th output is that of the target at this position. */
  ghost predicate AreOutputsAt(targets: seq<KubeTarget>, verdicts: seq<Verdict>, account: Account, at: seq<nat>)
    requires |verdicts| == |targets|
  {
    && IsAscending(at) && |at| == |account.outputs|
    && forall k | 0 <= k < |at| ::
         && at[k] < |targets| && verdicts[at[k]].output.Some?
         && account.outputs[k] == (targets[at[k]].name, verdicts[at[k]].output.value)
  }

  lemma OutputsSnoc(targets: seq<KubeTarget>, verdicts: seq<Verdict>, account: Account, at: seq<nat>)
    returns (more: seq<nat>)
    requires |verdicts| == |targets| && targets != []
    requires AreOutputsAt(targets[..|targets| - 1], verdicts[..|targets| - 1], account, at)
    ensures
      AreOutputsAt(targets, verdicts, Extend(account, targets[|targets| - 1], verdicts[|targets| - 1]), more)
  {
    var n := |targets| - 1;
    ExtendLists(account, targets[n], verdicts[n]);
    more := if verdicts[n].output.Some? then at + [n] else at;
  }

  /** The outputs are listed in schema order. */
  lemma {:induction false} OutputsAreInOrder(targets: seq<KubeTarget>, verdicts: seq<Verdict>) returns (at: seq<nat>)
    requires |verdicts| == |targets|
    ensures AreOutputsAt(targets, verdicts, AccountOf(targets, verdicts), at)
  {
    at := [];
    if targets != [] {
      var n := |targets| - 1;
      at := OutputsAreInOrder(targets[..n], verdicts[..n]);
      at := OutputsSnoc(targets, verdicts, AccountOf(targets[..n], verdicts[..n]), at);
    }
  }

  /** So are the failures. */
  lemma {:induction false} FailuresAreInOrder(targets: seq<KubeTarget>, verdicts: seq<Verdict>) returns (at: seq<nat>)
    requires |verdicts| == |targets|
    ensures IsPicked(AccountOf(targets, verdicts).failures, TargetNames(targets), at)
  {
    at := [];
    if targets != [] {
      var n := |targets| - 1;
      var account := AccountOf(targets[..n], verdicts[..n]);
      at := FailuresAreInOrder(targets[..n], verdicts[..n]);
      TargetNamesSnoc(targets);
      ExtendLists(account, targets[n], verdicts[n]);
      PickSnoc(account.failures, TargetNames(targets[..n]), at, targets[n].name);
      if verdicts[n].output.None? && targets[n].required {
        at := at + [n];
      }
    }
  }

  /** Where all targets are required and none is listed as failed, the outputs are the targets', one by one. */
  lemma {:induction false} AllRequiredAreServed(targets: seq<KubeTarget>, verdicts: seq<Verdict>)
    requires |verdicts| == |targets| && AccountOf(targets, verdicts).failures == []
    requires forall i | 0 <= i < |targets| :: targets[i].required
    ensures var outputs := AccountOf(targets, verdicts).outputs;
      |outputs| == |targets| && forall i | 0 <= i < |targets| :: outputs[i].0 == targets[i].name
  {
    if targets != [] {
      AllRequiredAreServed(targets[..|targets| - 1], verdicts[..|targets| - 1]);
    }
  }

  /** Every output belongs to a target that succeeds, and its record says what its document says. */
  lemma OutputsAgree(targets: seq<KubeTarget>, answers: seq<Answer>, j: nat)
    requires |answers| == |targets| && NoneAborts(targets, answers)
    requires j < |AccountOf(targets, Verdicts(targets, answers)).outputs|
    ensures var (name, output) := AccountOf(targets, Verdicts(targets, answers)).outputs[j];
      && AgreesWithContent(output)
      && exists i :: 0 <= i < |targets| && targets[i].name == name && Succeeds(targets[i], answers[i])
                     && IsRecordOf(output, targets[i], answers[i])
  {
    var verdicts := Verdicts(targets, answers);
    var at := OutputsAreInOrder(targets, verdicts);
    VerdictsAreSound(targets[at[j]], answers[at[j]]);
  }
}
