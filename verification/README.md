# agentctl: a verified model

agentctl runs coding agents in sandboxes. A daemon keeps each agent and each agent's harness
sessions in the state its owner asked for, while API calls, passes, failures and restarts of the
daemon interleave. This project models that daemon's protocols and states what they guarantee over
every run, with the four smaller algorithms that carry hard properties of their own.

`dafny verify dfyconfig.toml` checks everything.

## How it is laid out

| file | models |
|---|---|
| `Scheduler.dfy` | the keyed scheduling loop: coalescing, one pass for a key, at most 16 at once |
| `AgentStore.dfy` | agent rows and the transactions on them, each writing one column group |
| `DesiredWrites.dfy` | any number of concurrent calls that create agents and change their desired state by compare-and-swap |
| `ImmediateStops.dfy` | the requests for stops that end a sandbox at once |
| `AgentLifecycle.dfy` | one agent's passes, step by step, against API calls and crashes |
| `AgentGuarantees.dfy`, `AgentRuns.dfy` | what every run of that machine guarantees, and where a condition is needed |
| `SessionSettling.dfy` | the agent's passes together with its sessions' scheduled passes |
| `StaleLaunch.dfy` | the converse: when a session may start in a restarted sandbox on a read from before the stop |
| `Runs.dfy` | runs of a machine given by its steps, shared by the two machines above |
| `Convergence.dfy` | the wait for an agent to converge |
| `Activity.dfy`, `SessionReports.dfy` | reports from harnesses: authenticated, deduplicated, folded |
| `CompletionWait.dfy` | the state a session is seen in, and the wait for a prompted turn |
| `ChangeHistory.dfy` | writers that advance a revision and a watcher that waits on it |
| `Drain.dfy` | admission of mutations, and draining for an upgrade |
| `Framing.dfy` | lines over a stream that arrives in chunks |
| `Logins.dfy` | the choice of a login for an agent, and how choices spread |
| `Quoting.dfy`, `ProxyCommand.dfy`, `ConfigPaths.dfy` | words quoted for a shell and for OpenSSH, and the readers that undo it |
| `ManifestMerge.dfy`, `ManifestChain.dfy` | manifest inheritance |
| `Wrappers.dfy` | options, results and two facts about sets |

Concurrent code is a machine whose steps end at the original's awaits. Each database command is one
step, and a call into a sandbox or a harness ends in a step that succeeds or fails. A run is any
sequence of enabled steps. Code that updates an object in place is a class whose methods are proved
to take the object from one state of the machine to the next.

## What the proofs show of the code

Three properties that comments in the code state hold only under a condition. Each condition is
proved sufficient, and a concrete run shows what happens without it.

- A restart recorded at the timestamp the agent's status already observed is answered Ready without
  a stop of its own (`RepeatedTimestampSkipsARestart`). It takes hold exactly when its timestamp is
  not the observed one (`RestartTakesHoldExactlyWhen`).
- An immediate stop stays requested while no older stop of the same agent registers after it, unless
  it belongs to such a repeated restart (`AgentRuns.RegisteredStopStaysRequested`). Whatever came
  before its registration does not matter. It is without its request exactly when a pass that goes on
  to start the agent found a request older than what it had read (`AgentRuns.ForgottenExactlyWhen`),
  and that takes one of the two (`ForgettingNeedsALateRequest`). The register keeps the last request
  made, however old, so a late one can replace a newer one and then be forgotten as superseded
  (`LateRequestLosesAStop`).
- The comment at `agentctl/src/control_plane/reconciler.rs:479-481` says no session pass from before
  a stop can start a harness in the restarted sandbox. That holds when the stop was recorded and its
  sessions were listed (`NoLaunchFromBeforeTheStop`). Otherwise it fails in general: wherever a start
  stored meanwhile makes the store refuse the record, the pass ends before it settles the sessions,
  and every session that had read its agent before the stop may start its harness in the sandbox that
  runs again (`RefusedStopLetsAnyStaleLaunchThrough`); so it is when the sessions cannot be listed
  (`UnlistedSessionsLetAnyStaleLaunchThrough`), and a run reaches it
  (`RefusedStopLetsAStaleLaunchThrough`).

Two more conditions are found exactly. Applying a manifest overlay twice changes nothing, whatever
the base, exactly when the overlay has no `null` where the merge looks. The POSIX shell reads a
quoted line back exactly when no word is plain and begins with a tilde, which absolute paths never
are; OpenSSH reads every such line back. A watcher can wait past a change it has not seen only if
the 64-bit sequence went all the way around while it was away (`WrapHidesAWrite`).

## Model

| member | source | states |
|---|---|---|
| `Scheduler.RunKeeps` | agentctl/src/controller.rs:188-248 | over every run there is one pass for a key and at most 16 of them, `running` equals the keys under way, each accepted waiter is in exactly one of pending, in flight or answered, and no answer is taken back |
| `Scheduler.AnsweredOnceByALaterPass` | agentctl/src/controller.rs:188-263 | over every run, an accepted waiter is never dropped by coalescing or scans, is answered at most once, and by a pass for its own key that started after it was accepted |
| `Scheduler.WorkFalls` | agentctl/src/controller.rs:196-248 | twice the pending keys plus the passes under way falls by one with each start or completion |
| `Scheduler.DrainAnswersEveryone` | agentctl/src/controller.rs:196-248 | without new requests the loop stops after exactly that many steps, and then every accepted waiter has its answer |
| `Scheduler.StartPendingFillsUp` | agentctl/src/controller.rs:233-248 | after starting passes either 16 run or every pending key already has one, and nobody was answered or forgotten by it |
| `Scheduler.TurnsKeep` | agentctl/src/controller.rs:188-220 | the loop round by round, whatever it receives, keeps what every run keeps |
| `Scheduler.Controller.Enqueue` | agentctl/src/controller.rs:258-263 | a request joins whatever waits for its key, and a hint joins without a waiter |
| `Scheduler.Controller.EnqueueAll` | agentctl/src/controller.rs:222-231 | a scan makes every listed key pending and keeps the waiters of those already pending; a failed listing changes nothing |
| `Scheduler.Controller.StartPending` | agentctl/src/controller.rs:233-248 | starts the smallest startable key, again and again, until none is left or 16 run |
| `Scheduler.Controller.Complete` | agentctl/src/controller.rs:208-217 | ends one pass and sends its outcome to everyone it was for, in order |
| `Scheduler.Controller.Run` | agentctl/src/controller.rs:188-220 | the loop over any script of requests, listings and completions reaches the state the rounds define, with the invariant |
| `AgentStore.WritersKeepToTheirColumns` | agentctl/src/persistence/agents.rs:59-173 | a desired write leaves status alone and a status write leaves desired state alone, each only over the generation it names; no write touches another agent, revives one, or lets two active agents share a name |
| `AgentStore.Database.Put` | agentctl/src/persistence/agents.rs:59-107 | creates over generation zero unless the name is taken, else stores desired state over the expected generation, else says not found or conflict and changes nothing |
| `AgentStore.Database.UpdateStatus` | agentctl/src/persistence/agents.rs:109-133 | stores a status only for the generation its pass read, of an agent not being deleted |
| `AgentStore.Database.MarkDeleting` | agentctl/src/persistence/agents.rs:135-153 | marks an active agent as being deleted, once and for good, and answers with its row; a repeat changes nothing |
| `AgentStore.Database.FinalizeDeletion` | agentctl/src/persistence/agents.rs:155-173 | takes the name away only from an agent being deleted at the generation given |
| `DesiredWrites.NoLostUpdate` | agentctl/src/control_plane/service.rs:145-221 | from no agents, with any interleaving of callers that create, change and delete agents by name, each agent's desired state is the fold of its successful changes in generation order from its creation, and each success is at the generation it reports of the agent it found, also when the name has passed to another |
| `DesiredWrites.GenerationFixesDesired` | agentctl/src/control_plane/service.rs:476-494 | two sightings of one generation of an agent see the same desired state, and generations only grow |
| `DesiredWrites.NameFindsOne` | agentctl/src/persistence/agents.rs:24-43 | in every state these calls reach, a name finds one agent at most |
| `DesiredWrites.ControlPlane.ChangeDesired` | agentctl/src/control_plane/service.rs:476-494 | the retry loop stores its change on top of every other writer's, or finds nothing to change, or refuses an agent being deleted |
| `ImmediateStops.RequestedExactlyWhen` | agentctl/src/control_plane/service.rs:60-102 | after any sequence of requests, takes and supersessions, a request is there exactly when it was the last made and since then none took it and no newer start was read |
| `ImmediateStops.Requests.Take` | agentctl/src/control_plane/service.rs:75-78 | hands out this agent's request and forgets it, and no other |
| `ImmediateStops.Requests.Supersede` | agentctl/src/control_plane/service.rs:81-87 | forgets this agent's request when it is older than the generation given, and no other |
| `AgentGuarantees.ReachedKeeps` | agentctl/src/control_plane/reconciler.rs:82-227 | every state a new agent reaches by steps of passes, API calls, registrations and crashes keeps the invariant that ties the stored row and the pass under way to what passes achieved, and the requests to what is owed |
| `AgentRuns.RegisteredStopStaysRequested` | agentctl/src/control_plane/service.rs:437-444 | over every run, from its registration until a kill is attempted, a newer desired state is stored, the agent ends or the daemon does, an immediate stop stays requested, through abandoned set-ups, failed kills and superseding starts, if no older stop registers in between and it is not that of a restart at a timestamp already observed |
| `AgentRuns.ForgottenExactlyWhen` | agentctl/src/control_plane/reconciler.rs:126-128 | over every run, a waiting stop is at some point without its request exactly when a pass that goes on to start the agent met a request older than its record |
| `AgentRuns.ForgettingNeedsALateRequest` | agentctl/src/control_plane/service.rs:60-102 | that needs a registration for an older stop in between, unless the stop is that of a restart at a timestamp already observed |
| `AgentRuns.RequestsOfARun` | agentctl/src/control_plane/reconciler.rs:382-438 | over every run, an agent has a request for a generation exactly when that was the last put in, by a registration or a failed kill, and no take, crash or newer start came since |
| `AgentRuns.ObservedRestartWasCarriedOut` | agentctl/src/control_plane/reconciler.rs:98-125 | over every run, where the latest restart counts as observed, or Ready is recorded for the current generation, a pass that read that very restart stopped the sandbox after it was stored, across conflicts, failures and crashes; the restart must not carry a timestamp already observed |
| `AgentRuns.ConvergedWasAchieved` | agentctl/src/control_plane/reconciler.rs:515-547 | over every run, recorded Stopped or Ready for the current generation rests on an earlier pass that read that generation and stopped the sandbox, or recorded Ready with no restart left |
| `AgentGuarantees.ImmediateStopIsNotLost` | agentctl/src/control_plane/service.rs:437-444 | in every reachable state an owed stop is requested, and is the stored generation's, if no older stop registered since it did and it is not that of a repeated restart |
| `AgentGuarantees.OwedUntilMet` | agentctl/src/control_plane/reconciler.rs:382-438 | a stop is no longer owed only after a kill attempt, a newer desired state, the end of the agent's deletion, or a crash |
| `AgentGuarantees.LateRequestLosesAStop` | agentctl/src/control_plane/service.rs:60-102 | a run from a new agent in which a late registration for an older stop makes a newer one disappear |
| `AgentGuarantees.RestartIsNeverSkipped` | agentctl/src/control_plane/reconciler.rs:98-125 | in every reachable state, Ready for the current generation means no restart is pending, and an observed restart was served by a stop of the sandbox, unless the restart reused the observed timestamp |
| `AgentGuarantees.OnlyItsOwnStopServes` | agentctl/src/control_plane/reconciler.rs:398-438 | only a sandbox stop that succeeded, in a pass that read the latest restart, serves it |
| `AgentGuarantees.RestartTakesHoldExactlyWhen` | agentctl/src/manifest.rs:175-178 | a stored restart is pending exactly when its timestamp is not the observed one |
| `AgentGuarantees.RepeatedTimestampSkipsARestart` | agentctl/src/control_plane/service.rs:457-471 | a run in which a second restart at one timestamp is answered Ready with one stop only |
| `SessionSettling.NoLaunchUntilReady` | agentctl/src/sessions/controller.rs:67-80 | over every run, once sessions have settled after a stop no session pass, also one begun before it, starts a harness until Ready is stored again |
| `SessionSettling.NoLaunchFromBeforeTheStop` | agentctl/src/sessions/reconciler.rs:153-283 | over every run, a harness that starts in a running sandbox belongs to a session that read its agent after the sandbox's latest stop, unless a stop was refused its record or its sessions could not be listed and none have settled since |
| `StaleLaunch.RefusedStopLetsAnyStaleLaunchThrough` | agentctl/src/control_plane/reconciler.rs:467-485 | from every state that keeps the invariants and is about to be refused the record of a stop of an agent that is to run, each session that can launch may come to start its harness in the restarted sandbox on its read from before the stop |
| `StaleLaunch.UnlistedSessionsLetAnyStaleLaunchThrough` | agentctl/src/control_plane/reconciler.rs:467-485 | the same from every such state in which the stop is recorded and its sessions cannot be listed |
| `StaleLaunch.ReachedWell` | agentctl/src/control_plane/reconciler.rs:82-227 | every world a run reaches from a new agent keeps those invariants |
| `StaleLaunch.RefusedStopLetsAStaleLaunchThrough` | agentctl/src/control_plane/reconciler.rs:467-485 | a run from a new agent leads to such a launch |
| `Convergence.Converge` | agentctl/src/control_plane/convergence.rs:61-115 | the wait's answer for each policy: missing, gone, the pass's own failure, or the first reading that decides |
| `Convergence.DecidedByTheFirst` | agentctl/src/control_plane/convergence.rs:83-141 | the wait ends at the first reading that decides it, with that reading's verdict |
| `Convergence.WaitsWhileUndecided` | agentctl/src/control_plane/convergence.rs:83-141 | the wait goes on exactly while no reading decides it |
| `Convergence.ConvergedWaitIsSound` | agentctl/src/control_plane/convergence.rs:83-141 | over every run, a wait until converged answers only with a row it read, whose generation an earlier pass that read it brought to Ready, with no restart pending, or to Stopped |
| `Activity.FoldRemembers` | agentctl/src/sessions/activity.rs:67-88 | the fold of any reports counts completed turns, saturating, keeps the phase and time of the last report that was not a late start, and dates the phase from when it last changed |
| `SessionReports.Sessions.Begin` | agentctl/src/persistence/sessions.rs:324-356 | claims an event of the current launch of a live agent once; a repeat and a stale launch are told apart and change nothing |
| `SessionReports.Sessions.ApplyActivity` | agentctl/src/persistence/sessions.rs:284-298 | folds a new report of the current launch into the activity; drops any other without an error |
| `SessionReports.Sessions.RecordStart` | agentctl/src/persistence/sessions.rs:301-320 | records the conversation and folds the start, or says the launch is stale, or that the report is a repeat |
| `SessionReports.Sessions.Launched` | agentctl/src/persistence/sessions.rs:369-403 | replaces the launch, forgets activity and claimed events, and hands out the prompt |
| `SessionReports.Sessions.ClearReport` | agentctl/src/persistence/sessions.rs:268-277 | forgets the conversation and the activity, and keeps the launch and its claimed events |
| `SessionReports.Sessions.UpdateLifecycle` | agentctl/src/persistence/sessions.rs:230-264 | writes only the lifecycle columns, and the time only when the state changes |
| `SessionReports.ReportsCountOnce` | agentctl/src/persistence/sessions.rs:284-356 | over every history, stored activity is the fold of the events heard since the last launch or clear, each once, in first-arrival order, and the conversation is the one the last accepted start named |
| `SessionReports.TurnsAreCountedOnce` | agentctl/src/sessions/activity.rs:67-88 | the turn count is the number of distinct completed turns heard since then, saturating at 64 bits |
| `SessionReports.RedeliveryChangesNothing` | agentctl/src/persistence/sessions.rs:324-356 | delivering a report again at any time before another launch changes nothing |
| `SessionReports.MoreTurnsMeansATurnEnded` | agentctl/src/persistence/sessions.rs:284-298 | if a later reading counts more turns than an earlier one, the end of a turn was first reported in between, also across launches and clears |
| `SessionReports.SinceTheStateChanged` | agentctl/src/persistence/sessions.rs:230-264 | the lifecycle's time is that of the observation that brought the session into its state from another, however often it was observed again |
| `SessionReports.PromptGoesOutOnce` | agentctl/src/persistence/sessions.rs:369-403 | once any launch is recorded, no initial prompt is left for another |
| `SessionReports.LifecycleAndReportsApart` | agentctl/src/persistence/sessions.rs:230-277 | a lifecycle write changes nothing a report writes, and a report nothing a lifecycle write does |
| `CompletionWait.ObservedMeans` | agentctl/src/sessions/mod.rs:195-264 | each observed state holds exactly under its condition on the archive, the lifecycle and the reports |
| `CompletionWait.WaitForCompletion` | agentctl/src/sessions/service.rs:188-233 | returns at the first poll that ends the wait, or at the first of which it and the poll before saw equal waiting activity with more turns than before the prompt and than at every earlier poll that saw no waiting |
| `CompletionWait.CompletedMeansATurnEnded` | agentctl/src/sessions/service.rs:188-233 | when the wait completes, the end of a turn was first reported after the count it began from was read |
| `ChangeHistory.Changes.Bump` | agentctl/src/resources.rs:41-44 | advances the sequence by one, wrapping at 64 bits |
| `ChangeHistory.Changes.HasMoved` | agentctl/src/resources.rs:61-68 | a watch returns at once exactly when its revision is not the current one, another process's included |
| `ChangeHistory.WaitingMissesNothing` | agentctl/src/control_api/server.rs:779-796 | in every reachable state a watcher that waits on the revision it last read has seen every completed write in both lists, if fewer than 2^64 changes came since |
| `ChangeHistory.CompletionWakes` | agentctl/src/persistence/mod.rs:81-96 | a write that completes while a watcher waits on the current revision lets it go on at once |
| `ChangeHistory.WrapHidesAWrite` | agentctl/src/resources.rs:41-44 | a reachable state in which the sequence went all the way around and a waiting watcher has not seen a completed write |
| `Drain.RunKeeps` | agentctl/src/control_api/server.rs:365-425 | over every run the counter is the number of live guards, one shutdown check at most is held, exactly while checking, and no guard once draining |
| `Drain.DrainingAdmitsNothing` | agentctl/src/control_api/server.rs:555-566 | over every run, from the moment of draining on no mutation is in flight and none is admitted |
| `Drain.DrainsOnAQuietAnswer` | agentctl/src/control_api/server.rs:612-649 | the server drains only on a clear readiness answer that was asked for by the same check with no mutation in flight, and none was in flight from the asking to the answer |
| `Drain.ChecksEndOrDrain` | agentctl/src/control_api/server.rs:419-425 | a blocked, failed, timed-out or dropped check leaves the server running, with the next mutation admitted |
| `Drain.OneCheckAtATime` | agentctl/src/control_api/server.rs:612-625 | a second shutdown request is refused and leaves the first check alone |
| `Drain.SleepsOnlyWhileAMutationLives` | agentctl/src/control_api/server.rs:381-404 | the check sleeps only while a mutation lives, and the end of the last one wakes it |
| `Drain.Lifecycle.AdmitMutation` | agentctl/src/control_api/server.rs:373-379 | admits and counts a mutation exactly while running |
| `Drain.Lifecycle.Release` | agentctl/src/control_api/server.rs:396-404 | a dropped guard counts down, never below zero |
| `Drain.Lifecycle.Resume` | agentctl/src/control_api/server.rs:612-649 | the check goes from one await to the next, or to its reply; it drains only with no mutation in flight |
| `Framing.Reader.ReadMessage` | agentctl/src/control_api/protocol.rs:290-318 | for every split into chunks the result is one function of the bytes and the limit, a complete line is consumed exactly, and what is left is always a tail of the stream |
| `Framing.LinesCutTheStream` | agentctl/src/control_api/protocol.rs:290-318 | the lines are the stream cut after each newline, with no byte lost |
| `Framing.ReadLines` | agentctl/src/control_api/server.rs:487-517 | reading until the end or a refusal gives the stream's lines in order, up to the first over the limit |
| `Framing.RepliesFitTheClient` | agentctl/src/control_api/server.rs:1023-1042 | every reply, whatever its size, is read whole by its client with its newline, and is the reply itself exactly when that fits |
| `Logins.ChooseKeepsOrSpreads` | agentctl/src/harness/login.rs:170-190 | none exactly when no login of the set is stored; the current one while it may be kept; else the least used, and of those the preferred |
| `Logins.AuthenticationManager.CountUses` | agentctl/src/harness/mod.rs:517-529 | counts for each login exactly the other running agents that use it |
| `Logins.AuthenticationManager.AssignLogin` | agentctl/src/harness/mod.rs:486-538 | forgets agents no longer listed, chooses over the counts, and records the choice or its absence for this agent and harness only |
| `Logins.LoginsSpread` | agentctl/src/harness/mod.rs:486-538 | over any passes for fresh running agents of one set, repeated and interleaved, the users of two usable logins differ by one at most, and an agent keeps the login it was given |
| `Quoting.WindowsQuote` | agentctl/src/ssh/client_config.rs:272-297 | the loop over a counter of backslashes writes the word the reader lemmas are about |
| `Quoting.WindowsRoundTrip` | agentctl/src/ssh/client_config.rs:267-297 | any list of words, quoted and joined by spaces, is split back into exactly that list by the `CreateProcess` rules |
| `Quoting.PosixQuote` | agentctl/src/ssh/client_config.rs:226-241 | the loop writes the word the reader lemmas are about |
| `Quoting.PosixReadersAgreeExactlyWhen` | agentctl/src/ssh/client_config.rs:219-241 | OpenSSH reads every quoted line back as its words, and the POSIX shell does exactly when no word is plain and begins with a tilde |
| `Quoting.PowerShellQuote` | agentctl/src/ssh/client_config.rs:250-265 | writes a single-quoted word when PowerShell would expand it, else the Windows word |
| `Quoting.PowerShellReadsBack` | agentctl/src/ssh/client_config.rs:243-265 | the single-quoted word is read literally, for every kind of single quote in it |
| `Quoting.PromptIsReadBack` | agentctl/src/harness/mod.rs:837-858 | a prompt is accepted exactly when it has no NUL and its quoted argument fits the limit in UTF-8 bytes, and the shell reads the argument back as the whole prompt |
| `ProxyCommand.RenderedIsTheDoubledLine` | agentctl/src/ssh/client_config.rs:176-201 | what is written is the quoted line of the five words, the home without its trailing separators, with every percent doubled |
| `ProxyCommand.ProxyCommandReadBackExactlyWhen` | agentctl/src/ssh/client_config.rs:140-201 | the command is written exactly when both paths as given fit on one line; undoing the percents and splitting for the host's shell gives the executable, `--home`, the trimmed home, `ssh-proxy` and `agent/<name>` exactly when the shell expands neither path as given |
| `ProxyCommand.OpenSshAcceptsTheLine` | agentctl/src/ssh/client_config.rs:219-241 | OpenSSH's reader accepts the written line, with its percents doubled, as the same five words |
| `ProxyCommand.ResolvesForItsOwnAgentOnly` | agentctl/src/ssh/client_config.rs:203-218 | a resolved configuration whose one command line is that written for an agent, whatever its paths and its other lines, is recognised for that agent and no other, and one without a command line for none |
| `ProxyCommand.WithoutTrailingSeparator` | agentctl/src/ssh/client_config.rs:140-157 | the loop gives the trimmed Unix path |
| `ProxyCommand.TrimmedIs` | agentctl/src/ssh/client_config.rs:140-157 | a Unix path loses exactly the separators it ends with, unless it is a spelling of the root, which is kept whole |
| `ConfigPaths.QuoteConfigValue` | agentctl/src/ssh/client_config.rs:309-323 | the loop writes the configuration word the reader lemma is about |
| `ConfigPaths.PathDirectiveIsReadBack` | agentctl/src/ssh/client_config.rs:59-82 | OpenSSH reads a path directive as its keyword and one word; expanding the word's percents gives the path itself, or below the user's home a `~/` spelling that expands to a path of the same components |
| `ManifestMerge.MergeValue` | agentctl/src/manifest.rs:1320-1354 | the in-place merge, taking the patch's keys in any order, gives one result |
| `ManifestMerge.MergedAt` | agentctl/src/manifest.rs:1320-1354 | what the result holds at every path both values reach: the base's value if unmentioned, nothing for a `null` over a value, else the merge |
| `ManifestMerge.ReplacedBelow` | agentctl/src/manifest.rs:1321-1335 | below a changed `type` or a value that is not a mapping, the result is the overlay's alone |
| `ManifestMerge.UnmentionedIsInherited` | agentctl/src/manifest.rs:1320-1354 | a key the overlay does not mention keeps its inherited value at every depth, unless an ancestor is replaced |
| `ManifestMerge.ReapplyingChangesNothingExactlyWhen` | agentctl/src/manifest.rs:1337-1352 | applying an overlay again changes nothing, for every base, exactly when it has no `null` in its nested mappings |
| `ManifestChain.Resolver.ResolveValue` | agentctl/src/manifest.rs:1181-1317 | the recursion over the two growing vectors ends for every directory, gives what the chain determines, and leaves the chain it walked |
| `ManifestChain.VariantOfItsFilename` | agentctl/src/manifest.rs:1167-1173 | a filename selects a variant exactly when it is the conventional one of a name `[a-z0-9]+(-[a-z0-9]+)*` |
| `ManifestChain.LineageIsDistinct` | agentctl/src/manifest.rs:1186-1195 | a chain that reaches a complete agent never meets a manifest twice |
| `ManifestChain.ResolvesExactlyWhen` | agentctl/src/manifest.rs:1181-1317 | resolution succeeds exactly when at most 16 manifests of one version, each sound by itself, lead through the siblings they extend from the leaf to a complete agent, and gives the base overlaid in order to the leaf |
| `ManifestChain.FailuresAreReached` | agentctl/src/manifest.rs:1186-1201 | every failure names a manifest reached from the leaf through distinct ones; a cycle comes back to one of them, and a chain is too long only past 16 |
| `ManifestChain.InheritedThroughTheChain` | agentctl/src/manifest.rs:1147-1152 | a path no manifest below the base mentions or replaces holds in the leaf exactly what it holds in the base |

## Left out

- AgentRuns.RegisteredStopStaysRequested: holds while no older stop registers meanwhile, and unless the stop is that of a restart whose timestamp was already observed; `LateRequestLosesAStop` shows why, and `AgentRuns.ForgottenExactlyWhen` is the exact condition.
- AgentRuns.ObservedRestartWasCarriedOut: asks that the restart's timestamp is not one already observed; `RestartTakesHoldExactlyWhen` is the exact condition.
- SessionSettling.NoLaunchFromBeforeTheStop: asks that no stop was lost since sessions last settled; `StaleLaunch` proves that a lost stop lets sessions through.
- AgentStore.Database.UpdateStatus: the scrubbing of texts and the stamping of transition times are left out.
- DesiredWrites.NoLostUpdate: requests are taken as valid; the checks of a request before its first read, of immutable fields, mount sources and exposed secrets, and create-only requests, are left out.
- ChangeHistory.WaitingMissesNothing: asks that fewer than 2^64 changes came since the last read; `WrapHidesAWrite` shows the run at exactly that many.
- Logins.LoginsSpread: is about agents that start fresh and keep running with one set of usable logins; agents that stop, or bring a login from their stored status, can leave any difference behind.
- ManifestChain.Resolver.ResolveValue: the strict check on a complete agent is given with the directory; its field validators and YAML syntax, tags included, are not part of this model, and neither is a sibling named with a separator after it.
- Framing.RepliesFitTheClient: takes the encoding of a reply as given, of one line as JSON encoders write it.
- ProxyCommand.WithoutTrailingSeparator: Windows drive and share roots are not part of this model; the Windows command takes its home already trimmed.
- ConfigPaths.PathDirectiveIsReadBack: is about absolute Unix paths; that OpenSSH expands the percents of a home that the tilde stands for is not modelled.
- Quoting.PowerShellQuote: how PowerShell and cmd read double-quoted words is not modelled; only the words PowerShell would expand are read back.
- Moving parts of the agent's status that no property needs: progress, provenance, condition texts and transition times. A condition's text is one opaque string.
- In `AgentLifecycle` an API call is one step; that its read and its compare-and-swap may be apart is the subject of `DesiredWrites`, whose result justifies the single step. That an agent has one pass at a time is the scheduler's invariant.
- A settle whose session listing succeeds wakes every session; a failure of the listing is an event, a failure of a wakeup is not.
- Sessions are created before a history of reports begins, and a launch whose token another session holds fails and is not in the history.
- Idle timeouts, backoff times, resumption and archiving of sessions appear only as passes that may end at any await.
- Fairness of the scheduler: the smallest startable key goes first, so nothing bounds a wait under endless wakeups.
- When an interrupted set-up resumes, and that a later stop is graceful.
- Timeouts and polling intervals, except as events that may come at any time.
- Sandboxes, providers, terminals, guest set-up, sockets, files, the SQL under the transactions, secrets, authorization, upgrades and the retired listener under `integrations/`.
