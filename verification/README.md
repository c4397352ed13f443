# tunstrap: a verified model

`tunstrap` opens SSH tunnels for the nodes of a schema and keeps them in a daemon, one daemon per
session directory. Its difficulty lies in protocols over shared state. This project models those
protocols in Dafny 4.11 and proves what they promise, over every input, interleaving and run.
`dafny verify dfyconfig.toml` checks the whole project.

| files | subject |
|---|---|
| `SessionProtocol`, `SessionSafety`, `Materials` | the lock and directory protocol as a step machine over any number of processes: one step per system call, crashes anywhere; what the files in `tunnel-data/` hold |
| `SessionDirectory` | `identity.py` and `session.py` as objects; each system call is one step of that machine, with any steps of others in between |
| `Forwards`, `Fetcher`, `Kubeconfig`, `KubeTargets` | what a node does on its connection: forwards, files, kubeconfigs |
| `Nodes`, `NodeStart`, `Manager`, `TunnelManager`, `Faults` | concurrent start-up: coroutines in every interleaving, with errors anywhere; conservation of transports; the report and what it guarantees; what an unlisted error leaves open |
| `Activity`, `Watchdog` | the connection counter over any trace of hooks, and the idle watchdog in real time |
| `Messages`, `JsonReader`, `Worker` | the text of the messages to the parent, and what it reads; the daemon's life on top of these objects |
| `EnvRender`, `ShellExports`, `SessionEnv`, `StartCommand`, `RunCommand`, `StopCommand`, `StopEscalation` | the command line: environment, shell quoting, `start`, `run` and `stop` |
| `Endpoints`, `Schemas`, `Plans` | the two endpoint parsers, the input models, the trip of validated input to the worker, and what the manager starts from it |
| `Text`, `Wrappers` | the string operations and the optional values that the others share |

How the outside world enters: the answers of SSH servers, of the SFTP channel and of TLS probes are
values given to the code (a node's *fate*); other processes, the pipe, the clock and `os.kill` are
methods that may answer anything within their contracts; the interleaving of coroutines is a list of
turns, each of which lets one coroutine run or makes what it awaits raise. All theorems quantify over
all of these. Methods have the loops and branches of tunstrap's code; functions specify them; lemmas
say what the functions mean, in terms that do not name them. Proofs by induction are written out.

## Where the code falls short of what is said about it

Each is kept as the code has it; the exact condition is proved.

- **Mutual exclusion is conditional.** Release unlinks the name and then closes, so a contender that
  had opened the old inode may lock it while a newcomer locks a fresh one.
  `MutualExclusionNeedsItsGuard` is such a run; `LockGuardIsExact` shows that dropping the name
  keeps exclusion unbreakable if and only if no other process contends or is active at that moment.
- **Cleanup can hit a newcomer**, since the lock is released before `tunnel-data/` is removed
  (`DataIntegrityNeedsItsGuard`), and a stop that found another pid removes the serving daemon's
  data (`StopRemovesServingData`). `DataGuardIsExact` has the condition.
- **A stale record can match.** While a start is between flock and truncate, or a probe holds the
  lock, `verify_session` answers match for the pid of an earlier session: `StaleRecordMatches`,
  `VerifyMatchesExactlyIf`.
- **A target's failure can abort its node**, although `run_kube_targets` documents the targets as
  independent: errors in the forward or the probe are not caught. `OneTargetAbortsNode`; the
  condition is the predicate `Aborts` in `RunKubeTargets`.
- **An unlisted error in one node leaves transports open** when the session is given back, for example
  a kubeconfig that cannot be written: `RaisingKeepsConnection`. `NodeStaysOpenExactlyIf` and
  `NothingStaysOpenExactlyIf` say which, by where each coroutine is at the stop and at the end.
- **A secure patch does not restore verification** in a kubeconfig that already disabled it:
  `SecurePatchKeepsItOff`, `SecurePatchVerifiesExactlyIf`.
- **Accepted keys may end in a newline**, since `$` matches before it: `NewlineKeyIsAccepted`,
  `KeysAreIdentifiersExactlyIf`.
- **Materialized files can take each other's place across nodes**: `MaterialNamesCollide`,
  `MaterialNamesCollideExactlyIf`; when every file keeps its own content is
  `MaterialsHoldTheirOwnExactlyIf`.
- **The two endpoint parsers accept different texts**: `EmptyBracketsDiffer`, `InnerBracketDiffers`;
  the conditions are `SchemaRefusesExactly` and `CommandLineRefusesExactly`.
- **`run` leaves the daemon behind when names on its command line collide as keys**:
  `CollidingHandlesStart` is such a start, `RunCommand.Run` has the condition.
- **`start --output env` reports a daemon error and leaves the daemon serving** when its environment
  does not render: `CollidingHandlesDisagree`. The condition is on the names for a command line
  (`CommandLineAgreesExactlyIf`); for JSON it is that one node is up, its names stay apart, and what
  it serves is on disk (`AnyInputAgreesExactlyIf`).
- **The message of a refused start can get lost**: `RefuseOverBrokenPipe`; the parent then reports a
  daemon error. That and the case before are the only ones in which the exit codes of `start` and of
  its worker differ on a regular exit (`ParentAgreesExactlyIf`).
- **`KUBECONFIG` is ambiguous if the session directory has a colon**: `ColonSplitsPath`,
  `KubeconfigSplitsBack`, `KubeconfigIsReadExactlyIf`.
- The repository's README says that an orphaned `tunnel-data/` must be removed by hand (lines 403-404, 427)
  and that stopping needs a token (line 385); the code reclaims the directory and has no token. The model
  follows the code.

## Model

| member | source | states |
|---|---|---|
| SessionSafety.PidRecordsBelongToTheirOwner | tunstrap/identity.py:33-52 | in every run, without any guard: only the flock holder changes an inode's content, and from the pid write to the close it is the holder's pid |
| SessionSafety.OnlyHolderWrites | tunstrap/identity.py:44-52 | a step that changes a lock file's content is a truncate or pid write of the process that holds its flock |
| SessionSafety.MutualExclusion | tunstrap/identity.py:33-64 | over all guarded runs of any number of starts, stops and crashes: at most one active process, on the inode that the path names |
| SessionSafety.LockGuardIsExact | tunstrap/identity.py:55-64 | a step that drops the lock's name leaves a continuation with two daemons, or one off the path, exactly if it is taken outside the guard |
| SessionSafety.MutualExclusionNeedsItsGuard | tunstrap/identity.py:55-64 | a concrete run with a contender between open and flock that ends with two active processes |
| SessionSafety.VerifyIsExact | tunstrap/identity.py:67-99 | in quiescent reachable states the answer is match, mismatch or not-found exactly according to who the active daemon is, and never unavailable |
| SessionSafety.VerifyMatchesExactlyIf | tunstrap/identity.py:67-99 | in every reachable state, with no guard: match exactly for the active process on the named inode with its pid on record, and for a stale record under a lock that a start or a probe holds just then |
| SessionSafety.VerifyIsUnavailableExactlyIf | tunstrap/identity.py:82-92 | unavailable exactly while the named lock is held without a pid on record, as between a start's truncate and its write |
| SessionSafety.StaleRecordMatches | tunstrap/identity.py:41-51 | a run of two steps after which a dead session's pid matches |
| SessionSafety.LoneStart | tunstrap/session.py:40-93 | from any state left by crashed sessions with a reclaimable slot, a lone start wins and ends with a fresh tunnel-data holding only its own identity |
| SessionSafety.LoneStartRejectsUnsafeSlot | tunstrap/session.py:75-89 | a symlink, a non-directory or a foreign directory makes a lone start give the lock back and leaves the slot as it was |
| SessionSafety.DataIntegrity | tunstrap/session.py:57-130 | over all runs within both guards, the files in tunnel-data of a serving daemon are all its own and read_identity finds its pid there |
| SessionSafety.DataGuardIsExact | tunstrap/session.py:95-135 | a step keeps the data of all daemons as it should be exactly if it is taken within the guard: removals, and writes over daemon.pid |
| SessionSafety.UnsafeSlotStays | tunstrap/session.py:75-135 | in no run does any process touch a tunnel-data that is a symlink, no directory, or foreign, where the session directory was supplied |
| SessionSafety.DataIntegrityNeedsItsGuard | tunstrap/session.py:114-120 | a concrete run in which the cleanup of one daemon removes the data of the next |
| SessionSafety.StopRemovesServingData | tunstrap/cli.py:345-358 | a run in which a stop meets a mismatch and removes the data of the daemon that serves |
| Materials.FilesAreAsWritten | tunstrap/session.py:91-112 | in every guarded run a serving daemon's files are those it wrote, daemon.pid among them, each as it wrote it last |
| Materials.MaterialsHoldTheirOwnExactlyIf | tunstrap/manager.py:186-191 | every file ends up with its own content exactly if no two writes differ under one name |
| SessionDirectory.OthersLeaveProcessAlone | tunstrap/identity.py:33-64 | whatever other processes do, they leave a process's stage, descriptor, flock and pid record alone |
| SessionDirectory.Host.AcquireSessionLock | tunstrap/identity.py:33-52 | under interference: success means the lock is held and the own pid is on record; a loser has only opened and closed |
| SessionDirectory.Host.ReleaseSessionLock | tunstrap/identity.py:55-64 | unlink, then close, and no lock is held afterwards |
| SessionDirectory.Host.VerifySession | tunstrap/identity.py:67-99 | with other processes between any two calls: the answer of the four states it looked at, and the steps it took itself |
| SessionDirectory.UndisturbedAnswer | tunstrap/identity.py:67-99 | when nothing moves in between, the protocol's answer about that one state |
| SessionDirectory.Host.ReclaimDataSlot | tunstrap/session.py:75-89 | wipes an own directory, refuses each unsafe slot with its error, or raises on the way with any of the files gone |
| SessionDirectory.SessionDir.Create | tunstrap/session.py:40-72 | the lock held and on record, or, for each kind of failure, a wipe or mkdir that raises among them, exactly the steps taken and no lock kept |
| SessionDirectory.SessionDir.WriteIdentity | tunstrap/session.py:91-93 | one protocol step that records the own pid, if the directory is still there |
| SessionDirectory.SessionDir.MaterializeFile | tunstrap/session.py:95-112 | writes one own file, whatever had its name, with what the one os.write took of its content, or refuses exactly the names that could leave the directory and changes nothing |
| SessionDirectory.SessionDir.Cleanup | tunstrap/session.py:114-120 | releases first and removes the data (or the generated directory) afterwards |
| Forwards.Connection.OpenLocalForwards | tunstrap/ssh.py:55-101 | each handle with the port that its own forward got, in schema order, and all listeners open; or the first failure with every opened listener closed once |
| Forwards.Connection.CloseTransport | tunstrap/ssh.py:104-124 | closes each listener once, in order, and then the connection |
| Fetcher.FetchFiles | tunstrap/fetcher.py:53-107 | the specified result for every file and the required failures, for every mix of channel-open, per-file and channel-close failures |
| Fetcher.ResultsAreExact | tunstrap/fetcher.py:58-107 | each requested name has one result: its content within 1 MiB with size and digest exactly if it is deliverable, else its error code |
| Fetcher.RequiredFailuresAreExact | tunstrap/fetcher.py:53-107 | a name is on the failure list exactly if it is required and its result is an error |
| Fetcher.ResultOf | tunstrap/fetcher.py:58-107 | content exactly if the channel serves and nothing exceeds 1048576 bytes, then the file's own with size and digest; else the error of channel or file, or EFBIG |
| Fetcher.FailuresAreInOrder | tunstrap/fetcher.py:53-107 | the failures come in the order of the schema |
| Kubeconfig.ParsesExactlyIf | tunstrap/kube.py:73-138 | which documents parse and what is read from them, key by key: the first context, cluster and user of the named ones, their texts, and the other contexts in order |
| Kubeconfig.GetIsFirst | tunstrap/kube.py:85-131 | a key reads as its first entry, or as null |
| Kubeconfig.PatchedDocumentReparses | tunstrap/kube.py:73-138 | the patched document parses again to the same names and credentials, an https URL of the local port, and the CA unless insecure |
| Kubeconfig.PatchChangesOneBody | tunstrap/kube.py:198-225 | only the first matching cluster's body changes; other clusters, duplicates included, contexts, users and all other keys stay |
| Kubeconfig.PatchedBodySays | tunstrap/kube.py:216-225 | the patched body key by key, for secure and insecure patches, with the rest of the body as it was |
| Kubeconfig.SecurePatchVerifiesExactlyIf | tunstrap/kube.py:223-225 | after a secure patch the kubeconfig verifies the server exactly if it had not disabled verification before |
| Kubeconfig.SecurePatchKeepsItOff | tunstrap/kube.py:223-225 | a document that parses, whose disabled verification survives every secure patch |
| Kubeconfig.KubeconfigView.PatchView | tunstrap/kube.py:198-225 | the in-place patch turns the document into the specified one |
| Kubeconfig.FindNamed | tunstrap/kube.py:141-148 | the first mapping of the list with that name, or none if there is none |
| KubeTargets.ChooseTlsServerName | tunstrap/kube.py:177-195 | the original host if a SAN has it, else the first DNS name, else the first address; fell back exactly if it is not the host |
| KubeTargets.OutputAgreesWithContent | tunstrap/kube.py:323-336 | the returned record says key by key what its own kubeconfig says, and its endpoint is the local port |
| KubeTargets.AbortsExactlyIf | tunstrap/kube.py:269-312 | when a target ends the loop with an error: what is caught and what is not |
| KubeTargets.VerdictsAreSound | tunstrap/kube.py:273-336 | one target: an output exactly if its answers allow one, with the texts of its fetched kubeconfig and the TLS name that the certificate or the input gives; every warning exactly when it is due; a listener exactly with an output |
| KubeTargets.RunKubeTargets | tunstrap/kube.py:252-337 | returns exactly if nothing aborts; then outputs, required failures and warnings are those of the targets' verdicts, with one open listener per output; when it raises, the listeners are those of the targets before, and the raising one's if it got one |
| KubeTargets.TargetIsAccountedFor | tunstrap/kube.py:269-337 | every target is either an output or a failure, listed exactly if required, reported exactly if failed, with its listener open or closed accordingly |
| KubeTargets.OutputsAgree | tunstrap/kube.py:323-336 | every returned output is the record of a target that succeeds and agrees with its own kubeconfig |
| KubeTargets.OutputsAreInOrder | tunstrap/kube.py:269-337 | the outputs come in the order of the schema |
| Nodes.AdvanceConserves | tunstrap/manager.py:130-201 | from await to await, what a coroutine opens is what it then owns, hands over or has closed |
| Nodes.OneTargetAbortsNode | tunstrap/kube.py:301-312 | a node whose first target's forward fails goes down although its second target would succeed |
| Nodes.ErrorSays | tunstrap/manager.py:130-198 | which error a node's answers lead to: the first in the order of the start, naming just what failed; none exactly if all went well |
| NodeStart.StartOne | tunstrap/manager.py:130-201 | one node with the real loops: its runtime is the outcome of its fate; a success keeps its listeners open, a failure has closed its connection |
| Manager.EveryResourceHasOnePlace | tunstrap/manager.py:65-201 | at every point of every interleaving, with unlisted errors at any await, each opened transport is owned by a coroutine, held by exactly one runtime, or closed, exactly once |
| Manager.EverythingIsClosedOnce | tunstrap/manager.py:65-97 | when all nodes are done and stop_all ran, once or twice, everything opened has been closed exactly once |
| Manager.ScheduleIndependence | tunstrap/manager.py:72-128 | the gathered runtimes are the nodes' outcomes in schema order, for every interleaving |
| Manager.EveryStartCanFinish | tunstrap/manager.py:124-128 | from every reachable state some schedule brings each coroutine to its end, and only those that had raised end with their error |
| TunnelManager.SuccessDelivers | tunstrap/manager.py:152-201 | a successful node has for each handle its own forward's port, for each file its own result, with content if required, and in order the records of the targets that succeed, all required ones among them, with their files' paths |
| TunnelManager.StartGuarantee | tunstrap/manager.py:80-122 | an error exactly if some required node failed, naming precisely those; otherwise every required node is served and every connection delivers |
| TunnelManager.WarningsAreExact | tunstrap/manager.py:107-115 | the warnings are the failed optional nodes with their errors, and what was noticed about kube targets of successful nodes |
| TunnelManager.SkippedComeFirst | tunstrap/manager.py:107-115 | the failed nodes come first |
| TunnelManager.KubeWarningsCons | tunstrap/manager.py:113-115 | the kube warnings come node by node |
| TunnelManager.FailedAreInOrder | tunstrap/manager.py:80-95 | failed nodes are listed in schema order |
| TunnelManager.ConnectionsAreInOrder | tunstrap/manager.py:99-107 | and so are the connections |
| TunnelManager.CollectFailed | tunstrap/manager.py:80-84 | the required and the optional failures, in schema order |
| TunnelManager.CollectConnections | tunstrap/manager.py:99-115 | the outputs of the successful nodes and their kube warnings, in schema order |
| Nodes.ThrowConserves | tunstrap/ssh.py:96-101 | an unlisted error at any await loses and closes nothing: what was open, a forward that was just opened too, is then being closed or left open |
| TunnelManager.TunnelManager.TakeTurn | tunstrap/manager.py:130-201 | one coroutine runs to its next await or raises; successes join the runtimes in completion order |
| TunnelManager.TunnelManager.StopAll | tunstrap/manager.py:65-70 | clears the runtimes and closes all they held |
| TunnelManager.TunnelManager.StartAllAndBuildOutput | tunstrap/manager.py:72-122 | raises exactly if a coroutine did; otherwise the report of the outcomes, and nothing stays open after a required failure |
| Activity.TotalsAreExact | tunstrap/activity.py:26-58 | for every trace of hooks on any trackers: the flags say which connections were opened and are open, and the count is their number, so the clamp never acts |
| Activity.IdleMeansNothingOpen | tunstrap/activity.py:96-98 | idle exactly if no connection is open |
| Activity.EventsChangeTotals | tunstrap/activity.py:42-58 | a hook counts, and stamps its time, exactly if it opens or closes a connection; repeated and premature hooks do nothing |
| Activity.IdleForMeansUnused | tunstrap/activity.py:83-103 | idle for d at time t means that nothing was open at any moment of that time and nothing was opened or closed in it |
| Activity.Trackers.Deliver | tunstrap/activity.py:42-58 | the objects' fields after a hook are what replaying the trace gives |
| Activity.Trackers.MakeTracker | tunstrap/activity.py:77-79 | a fresh tracker on the shared aggregate changes no count |
| Watchdog.PollInterval | tunstrap/_worker.py:48 | a second for timeouts up to four seconds, and a quarter of the timeout from then on |
| Watchdog.IdleWatchdog | tunstrap/_worker.py:38-56 | fires at the first check that is due and at no other, and only after the forwards were unused for the whole timeout; otherwise it was cancelled or a stop was requested |
| Watchdog.LatenessBound | tunstrap/_worker.py:48-56 | forwards unused from e on: the firing check is at e+T or later, and after that moment at most T/4 late, or a second for T below 4, and the sleep's overrun |
| Watchdog.UnusedDaemonStopsInTime | tunstrap/_worker.py:48-56 | a daemon that falls out of use is stopped, within that bound |
| Watchdog.WatchdogStopsUnusedDaemon | tunstrap/_worker.py:38-56 | the watchdog's own verdict: unless something else stops it first, it fires within the bound |
| Messages.PrintIsBalanced | tunstrap/_worker.py:68 | the text of every JSON value closes what it opens and nothing else, whatever its strings hold |
| Messages.MessageBegins | tunstrap/_worker.py:84 | a message begins with its kind, in these words |
| JsonReader.ReadsBack | tunstrap/_worker.py:68 | every printed JSON value reads back as itself, with all its strings, numbers and nesting |
| JsonReader.MessageReadsBack | tunstrap/daemon.py:77-96 | the parent reads the very kind and payload that the worker wrote |
| Messages.PartsReadAsNothing | tunstrap/daemon.py:77-96 | any part of a message reads as nothing, and the whole of it, with or without the newline, as its kind |
| Worker.Pipe.WriteMessage | tunstrap/_worker.py:67-73 | the whole frame, or an error after a part that is short by at least one byte |
| Worker.KindIsReadExactlyIf | tunstrap/daemon.py:77-96 | on a regular exit the parent reads the kind that the worker meant exactly if it is not a refused start of whose message the pipe took too little |
| StartCommand.ParentAgreesExactlyIf | tunstrap/cli.py:214-247 | on a regular exit the parent's exit code is the worker's exactly if it is neither such a refusal nor a success whose environment is wanted and does not render |
| StartCommand.Start | tunstrap/cli.py:214-247 | the exit code, and exports that a shell reads back as the environment exactly if it renders; a daemon that serves goes on serving in every case |
| StartCommand.CommandLineAgreesExactlyIf | tunstrap/cli.py:173-217 | with flags, a start that succeeds exits with 0 under --output env exactly if the names given stay apart as keys |
| StartCommand.AnyInputAgreesExactlyIf | tunstrap/cli.py:188-217 | with any input, exactly if one node is up, its names stay apart, and what it serves is on disk |
| StartCommand.CollidingHandlesDisagree | tunstrap/cli.py:214-217 | a start with two handles of one key: the worker's 0 and the parent's 4 |
| Worker.RefuseOverBrokenPipe | tunstrap/_worker.py:171-180 | a refused start over a pipe that fails: the worker exits with 3 and the parent reads nothing |
| Faults.NodeStaysOpenExactlyIf | tunstrap/_worker.py:106-118 | after an unlisted error a node's connection stays open exactly if its coroutine is suspended past it, raised past it, or succeeded too late for stop_all |
| Faults.NothingStaysOpenExactlyIf | tunstrap/_worker.py:106-118 | nothing stays open exactly if that is so of no node |
| Faults.RaisedLeavesConnection | tunstrap/ssh.py:96-101 | a node that raised leaves its connection open whenever it had got one |
| Faults.RaisingKeepsConnection | tunstrap/manager.py:186-191 | a start with one node whose kube targets raise ends with that node's connection open |
| Worker.RaisingLeavesConnection | tunstrap/_worker.py:106-118 | as a job of the worker: it reports a daemon error and gives the session back with that connection open |
| Worker.FinishServed | tunstrap/_worker.py:130-163 | success is told; it stops by a signal, or by a watchdog with the schema's timeout on the manager's own forwards; everything is closed before the session is given back |
| Worker.Serve | tunstrap/_worker.py:99-163 | message and exit code follow the start, and what is open when the session is given back is exactly what a fault leaves |
| Worker.RunSession | tunstrap/_worker.py:89-193 | from the won lock on: every regular exit gives the session back exactly once |
| Worker.RunWorker | tunstrap/_worker.py:166-193 | the whole worker under interference: one message or a part of it, and the steps of its life in order |
| EnvRender.VariableIsInjective | tunstrap/envrender.py:12-14 | two variables coincide exactly if key and suffix do |
| EnvRender.KeySays | tunstrap/envrender.py:9-14 | character by character what a name is written as; "db" is DB |
| EnvRender.SameKeyExactlyIf | tunstrap/envrender.py:9-14 | two names are written alike exactly if they are equally long and agree everywhere up to case, or are both neither letter nor digit there |
| EnvRender.RenderEnv | tunstrap/envrender.py:17-50 | renders exactly if there is one node, no two of its names are written alike and every path is set; a collision names a variable that two names want |
| EnvRender.RenderedHoldsEverything | tunstrap/envrender.py:23-50 | the number of variables, and the name and value of each |
| EnvRender.KubeconfigSplitsBack | tunstrap/envrender.py:38-49 | KUBECONFIG splits back to the paths exactly if none contains a colon |
| EnvRender.ColonSplitsPath | tunstrap/envrender.py:48-49 | a path with a colon reads back as two |
| SessionEnv.KubeconfigIsReadExactlyIf | tunstrap/envrender.py:38-49 | with names that the schema accepts, KUBECONFIG splits back exactly if the session directory has no colon |
| ShellExports.QuoteReadsBack | tunstrap/envrender.py:59-61 | a quoted value reads back as itself, whatever characters it has |
| ShellExports.ExportsReadBack | tunstrap/envrender.py:53-56 | evaluating the printed lines gives exactly the environment |
| ShellExports.RenderedExportsReadBack | tunstrap/envrender.py:17-56 | the same for every rendered session |
| SessionEnv.StartRendersExactlyIf | tunstrap/envrender.py:17-50 | a start's environment renders exactly if one node is up, its handles and served kube targets stay apart as keys, and its kubeconfigs are on disk |
| SessionEnv.CommandLineRendersExactlyIf | tunstrap/cli.py:92-127 | for a start from the command line exactly if the names given there stay apart as keys |
| RunCommand.Run | tunstrap/cli.py:297-342 | the teardown begins exactly if the start succeeded and the names stay apart; otherwise a serving daemon goes on serving with its lock and record, and the run has touched nothing |
| StopCommand.Session.TearDown | tunstrap/cli.py:334-342 | stops by force the process whose pid is in tunnel-data, if there is one, and no other one, then removes the data; the daemon is gone if it was the one and is said to be stopped |
| StopCommand.Session.StopDaemon | tunstrap/cli.py:345-358 | the same, but without a pid there it does nothing at all |
| StopCommand.ServingDaemonIsTheTarget | tunstrap/session.py:122-130 | in every guarded run, while a daemon serves, the pid in tunnel-data is its own and a check matches for it and no other |
| StopCommand.SignalsAreDeserved | tunstrap/cli.py:376-437 | with no guard: a signalled process was, at the check before, active on the named lock with its pid on record, or named by a stale record |
| StopCommand.OnlyTheDaemonIsSignalled | tunstrap/cli.py:376-437 | within the guards, while a daemon serves, no other process is signalled |
| RunCommand.CollidingHandlesStart | tunstrap/cli.py:302-303 | two handles with one key: the start succeeds and the names do not stay apart |
| StopEscalation.Stop.KillWithIdentity | tunstrap/cli.py:376-437 | for every behaviour of lock, process and clock: SIGTERM then SIGKILL at most, each after its own match, SIGKILL not before the grace time, a look after every half second until the process is gone or the grace time is over, one true verdict |
| StopEscalation.LooksAreClose | tunstrap/cli.py:404-413 | with calls and sleeps that overrun by at most o, consecutive looks are at most 0.5 + o apart |
| StopEscalation.GivesUpLate | tunstrap/cli.py:404-430 | it is given up only if the process was found alive no earlier than SIGTERM + grace - 0.5 - o |
| StopEscalation.GoneInTimeIsStopped | tunstrap/cli.py:404-437 | so a process that is gone by that moment is said to be stopped |
| StopEscalation.Stop.AwaitExit | tunstrap/cli.py:404-413 | at most two looks per second of grace, and it ends only when the process is gone or the grace time is over |
| Endpoints.CommandLineReadsExactlyIf | tunstrap/cli_input.py:24-52 | what the command line reads: brackets, last colon, port range and the default port 22, both ways |
| Endpoints.EndpointReadsExactlyIf | tunstrap/cli_input.py:14-42 | and of USER@HOST |
| Endpoints.SchemaReadsExactlyIf | tunstrap/schemas.py:25-53 | what the schema reads, both ways |
| Endpoints.ParsersAgree | tunstrap/cli_input.py:24-42 | on every text that both parsers accept they read the same host and port, for any integer reader |
| Endpoints.SchemaRefusesExactly | tunstrap/schemas.py:25-53 | what the command line accepts and the schema does not: no port, no host, or a bare double colon |
| Endpoints.CommandLineRefusesExactly | tunstrap/cli_input.py:24-42 | what the schema accepts and the command line does not: a closing bracket within a bracketed host |
| Endpoints.EmptyBracketsDiffer | tunstrap/schemas.py:45-46 | a text that only the command line accepts |
| Endpoints.InnerBracketDiffers | tunstrap/cli_input.py:26-33 | a text that only the schema accepts |
| Endpoints.CommandLineReadsBack | tunstrap/cli_input.py:24-52 | a printed host and port read back exactly if the host has no misleading bracket |
| Endpoints.SchemaReadsBack | tunstrap/schemas.py:25-53 | the same for the schema's parser, with its own exact condition |
| Endpoints.ConnectionReadsBack | tunstrap/cli_input.py:14-52 | a printed connection reads back exactly if user and host do |
| Endpoints.ParseNamed | tunstrap/cli_input.py:55-69 | succeeds exactly if the flags have a reading as distinct names with values, and returns it; otherwise reports the first bad flag |
| Endpoints.ReadingIsUnique | tunstrap/cli_input.py:55-69 | flags have at most one reading |
| Schemas.AcceptedExactlyIf | tunstrap/schemas.py:11-22 | the accepted keys: at most 64 characters, an identifier or one with a newline after it |
| Schemas.KeysAreIdentifiersExactlyIf | tunstrap/schemas.py:11-22 | an accepted key is an identifier exactly if it has no newline |
| Schemas.NewlineKeyIsAccepted | tunstrap/schemas.py:11-22 | a concrete key that is accepted and is no identifier |
| Schemas.MaterialNamesAreSafe | tunstrap/manager.py:187-190 | accepted keys never make a file name that the session directory refuses, nor that of daemon.pid |
| Schemas.MaterialNamesCollideExactlyIf | tunstrap/manager.py:187-190 | when two targets are materialized to the same name |
| Schemas.MaterialNamesCollide | tunstrap/manager.py:187-190 | four accepted keys that make one file name |
| Schemas.ValidateTarget | tunstrap/schemas.py:157-163 | an accepted target has a host of 1 to 255 characters and a port of 1 to 65535 |
| Schemas.ValidateRemoteTargets | tunstrap/schemas.py:190-225 | the loop: all entries of any form, or nothing if one of them is bad |
| Schemas.ValidatesExactlyIf | tunstrap/schemas.py:56-283 | which input is accepted and what each field is read as, with the default of each that is absent, both ways |
| Schemas.ValidatedInputIsGood | tunstrap/schemas.py:157-283 | whatever JSON validation accepts keeps all rules of the schema |
| Schemas.InputSurvives | tunstrap/_worker.py:59-64 | the worker validates the dump to exactly the input that the parent validated, each with conversions of its own, unless it lacks the agent that some node needs |
| Plans.ValidatedInputIsSchema | tunstrap/manager.py:58-63 | validated input gives the manager distinct node names and well-formed nodes with distinct keys |
| Plans.PlansAreAsAsked | tunstrap/manager.py:124-140 | and asks for just what the input does, node by node |

## Left out

- asyncssh, SFTP, TLS sockets, X.509 decoding, `urlsplit`: foreign calls; each gives an arbitrary value or a listed error.
- YAML, base64 and SHA-256: library code; documents are structured values, the digest is a parameter. Of JSON, the printer and a reader for what it prints; floats are not in the messages.
- The payload of a message: any JSON value; how the report is written as one, with its pid, session directory and time of start, is not modelled.
- YAML aliases: a kubeconfig is a tree of ordered maps with string keys, so no two places share a node.
- What asyncio does after the worker's handler of unlisted errors: the coroutines that are left are cancelled, and the process exits.
- Tracebacks of the worker: when writing its frame or closing the pipe fails after a start, the process ends without cleanup; the model says so (`Escaped`) and stops there. The kernel's part of it is the protocol's `Crash` step.
- Materialization during start-up: `Worker` does not interleave it with the nodes; `MaterializeFile`, the protocol's steps and `Materials` cover the files, and a failing write of file content is not modelled.
- SessionDirectory.SessionDir.MaterializeFile: no symlinks within tunnel-data, which the daemon has made itself with mode 0700.
- StopCommand.SignalsAreDeserved: each check is one look at the session; `Host.VerifySession` has it call by call.
- What `os.kill` does: that a process which it does not find, or to which it has delivered SIGKILL, takes no more steps, and that other processes are not concerned, is what `StopCommand.Session.Settle` says of the kernel.
- `int()` of other texts than decimal digits in daemon.pid: `ReadPid` refuses them.
- A mkdtemp race: a generated directory has its own name, so only its own process creates it.
- Parent directories, file modes, resolution of symlinks, and the failure of single system calls in `acquire_session_lock` other than the flock.
- Process existence, zombies and reuse of process ids: `alive` is a set given to `Verify`, apart from which daemon is active.
- A foreign-owned `tunnel-data`: the best-effort removal leaves it in place.
- Kube forwards: they have no tracker (`tunstrap/kube.py:301`), so they never count as use for the watchdog; `Activity` covers the forwards of `tunstrap/ssh.py:76-82`.
- LatenessBound: counts from the start of the watchdog if that is later than the end of the idle time, because start-up may take longer than the timeout.
- Cancelled connection attempts, compression, key loading and other SSH options.
- Non-ASCII names: `EnvRender.Key` upper-cases ASCII letters; the schema admits no others in keys.
- Python's `int()`: an arbitrary reader where the parsers are compared, plain decimal where text is read back.
- pydantic's lax conversions to integers and booleans: parameters that keep integers and booleans as they are; other error reporting than accept or refuse.
- Dictionaries with repeated keys: Python's cannot have any; here they are lists of pairs in their order.
- The listed order of collisions in `render_env`: a collision names a contested variable, and not necessarily the first of several.
- Spawning the worker, log files, signal forwarding to the child of `run`, click options, help texts and version lookup.
- The exit-code table and the scrubbing of secrets in `exceptions.py`, and single-field checks: one line each.
