# Tailhopper: a verified model of its core

Tailhopper joins one machine to several Tailscale tailnets at once. Each tailnet is a state machine that is driven by
user commands and by notifications from its backend; a registry hands out MagicDNS suffixes, writes every decision to a
file and restores it after a restart; and a PAC file sends each host to the SOCKS port of the tailnet that owns its
suffix. This project models that core in Dafny and proves what it promises.

`dafny verify dfyconfig.toml` checks everything.

## Layers

- `Ipn.dfy`: the merge of partial backend notifications, suffix extraction, and the watcher that runs them.
- `Model.dfy`: the specification of every operation of a tailnet and of the registry as a function of the state and of
  the outcomes of its I/O: listening, server start, local client, watcher, closes, saves. All outcomes are arguments.
- `System.dfy`, `Invariants.dfy`, `Callbacks.dfy`, `Runs.dfy`: all tailnets, the file and the calls in flight,
  interleaved; the inductive invariant; and that every step of every run keeps it.
- `Safety.dfy`, `Convergence.dfy`, `Announcements.dfy`, `Restarts.dfy`, `Unconfigured.dfy`, `Ports.dfy`: theorems about
  whole runs.
- `Effects.dfy`: what each operation does in each outcome, and what of it a restart keeps.
- `Sse.dfy`, `Storage.dfy`, `Ids.dfy`, `Service.dfy`, `Handlers.dfy`: the classes, with the fields and loops of the
  program. Each method is proved equal to its specification.
- `Installation.dfy`: every run of the run model is carried out by these methods on these objects, so the theorems about
  runs are about them.
- `Pac.dfy`, `Glob.dfy`, `Text.dfy`, `PacText.dfy`, `Routing.dfy`: the PAC writer as a compiler; a parser, an evaluator
  and a glob matcher for what it writes; and what the written program routes where.
- `LogFields.dfy`: the log splitter.
- `Locks.dfy`, `LockUse.dfy`, `LockTimeout.dfy`: read-write locks with waiting writers, the lock use of every goroutine,
  deadlock freedom, and why the watcher's Close needs its timer.

## Steps

A step is one section under `t.mu` or `m.mu`: a command, the locked part of a callback, the rest of a callback (cleanup
and broadcast), each half of a logout, the check and the commit of an add request, a delete. The short registry
sections inside a command run in that command's step. A crash is possible between any two steps; a crash inside a step
leaves the same file as that step with its remaining saves failing without a trace, followed by the crash. A save
succeeds, leaves the file as it was, or leaves it unreadable; from an unreadable file there is no restart, because
`NewRegistry` fails and the program ends. A restart begins with a new broadcaster and a host on which nothing is open.

## Where the code and its promises differ

The model follows the code. Each of these is proved, with the exact condition where there is one.

- "A duplicate claim is fatal" (internal/ts/tailnet.go:507-509) fails when a transition applies to the same
  notification: `Convergence.CollisionIsFatalUnlessOverridden`; `Convergence.CollisionOverridden` is such a run.
- "Already claimed by another tailnet" (internal/ts/suffix_registry.go:15-21) is untrue after a failed save of the
  tailnet's own claim, and fatal all the same: `Convergence.ClaimedByAnother`, `Convergence.FailedClaimCollides`.
- "We now have no more unconfigured tailnets" (internal/registry/registry.go:98) can fail in two ways. Overlapping add
  requests leave two (`Unconfigured.OverlappingAddsBreakIt`, `Unconfigured.AddKeepsItExactly`). Without overlaps it holds
  if and only if the claimant's config had no suffix or nobody waited (`Unconfigured.ClaimLeavesNoneExactly`): after a
  failed save a claimant may have one (`Unconfigured.ClaimStillLeavesOne`).
- A start can return nil without having started anything: `Safety.SuccessMeansStarted`.
- A start whose watcher cannot be created announces nothing and leaves its listener open: `Announcements.SilentStart`,
  `Announcements.StartAnnouncesExactly`;
  the port theorem therefore assumes that watchers can be created.
- The terminal cleanup of a callback that runs in the goroutine of the watcher that the tailnet holds waits for its own
  goroutine, and its timer alone ends that: `LockTimeout.CleanupJoinsItself`, `LockTimeout.CleanupWait`. A callback left
  over from an earlier watcher waits for another goroutine.
- A glob character in a suffix widens its rule, and a host with a trailing dot matches none:
  `Glob.DotSuffixExactlyWhenPlain`, `Routing.TrailingDotGoesDirect`. A quote, a backslash, a line feed or a
  carriage return in a suffix breaks the text: `PacText.RoundTripExactly`.

## Model

| member | source | states |
|---|---|---|
| Runs.RunKeeps | internal/ts/tailnet.go:136-444 | The system invariant (owned handles, mirrored config fields, unique claims, sound file, pending calls) holds after every run of commands, callbacks, requests, failing saves and crashes. |
| Runs.StepKeeps | internal/registry/registry.go:70-352 | Each single section under t.mu or m.mu, with every outcome of every I/O call, and each restart keeps that invariant. |
| Safety.SuffixesUnique | internal/registry/registry.go:70-103 | In every reachable state no two registered tailnets have claimed the same non-empty suffix, in memory or in the file, and a tailnet's own suffix is the one in its config. |
| Safety.SuffixIsPermanent | internal/ts/tailnet.go:493-525 | Once a registered tailnet has its suffix, nothing but its deletion takes it away: no command, callback, failing save, crash or restart. |
| Safety.ObjectKeepsSuffix | internal/ts/tailnet.go:493-518 | The suffix of a tailnet object is written once, also for objects whose registration was deleted. |
| Safety.StaysRegistered | internal/registry/registry.go:322-352 | Only its own deletion or a restart takes a config out of the registry. |
| Safety.HandleSafety | internal/ts/tailnet.go:136-283 | In every reachable state Started, Connected, NeedsLogin and NeedsMachineAuth hold an unclosed server, watcher and proxy; the terminal state holds none; no handle is closed twice. |
| Safety.SuccessMeansStarted | internal/ts/tailnet.go:191-206 | A start that returns nil has started the tailnet, except exactly when LocalClient fails and the server then closes: the branch overwrites its error. |
| Safety.LogoutIsExclusive | internal/ts/tailnet.go:294-337 | A tailnet is in LoggingOutState exactly while one Logout is between its unlock and its deferred relock, so the deferred transition always leaves that state for Stopped. |
| Safety.OnlyLogoutEndLeaves | internal/ts/tailnet.go:369-430 | No other command and no callback changes a tailnet that is logging out. |
| Safety.TerminalMeansDisabled | internal/ts/tailnet.go:576-597 | The terminal state has a recorded error and a disabled user; a running tailnet with a disabled user has a recorded error. |
| Safety.TerminalIsAbsorbing | internal/ts/tailnet.go:87-101 | Within one process nothing about a tailnet in its terminal state ever changes again. |
| Safety.TerminalIsDurable | internal/ts/tailnet.go:576-597 | A registered tailnet stays in its terminal state with its error through every run without its deletion, restarts and failing saves included, if and only if the file as it is now holds that error or is unreadable. |
| Safety.SyncedIsDurable | internal/registry/registry.go:167-180 | The terminal state is durable in this sense whenever the last save succeeded. |
| Convergence.SavedErrorIsDurable | internal/ts/tailnet.go:579-589 | It also is after every callback that ends there and whose save of the error succeeded, however the save of the intent ended. |
| Convergence.CallbackTable | internal/ts/tailnet.go:369-434 | For all four running states and every notification: the next state is the table's entry for the backend state if there is one, else terminal on a collision, else unchanged; and what the callback does to error, intent and suffix. |
| Convergence.CollisionIsFatalUnlessOverridden | internal/ts/processor.go:30-42 | A duplicate claim records its error and disables the user always, but ends in the terminal state if and only if no transition applies to the same notification. |
| Convergence.CollisionOverridden | internal/ts/tailnet.go:416-426 | A run from an empty installation whose last callback collides and ends in Connected with the error recorded: the collision is not fatal there. |
| Convergence.ClaimedByAnother | internal/registry/registry.go:74-79 | "Already claimed by another tailnet" is true if and only if the tailnet's own config does not hold the suffix. |
| Convergence.FailedClaimCollides | internal/registry/registry.go:86-92 | After a failed save of its claim, a tailnet's next callback with the same suffix is fatal although nobody else holds that suffix. |
| Convergence.FreshRunConnects | internal/web/handlers.go:187-229 | A concrete run from an empty installation reaches the state in which that self-collision happens. |
| Convergence.TwoCallbacksSettle | internal/ts/tailnet.go:379-434 | From any running state, two callbacks that carry Running and a suffix leave a registered tailnet connected with its claimed suffix or terminal, whatever other tailnets do in between; only the second claim has to be saved. |
| Effects.StartRecordsIntent | internal/ts/tailnet.go:136-145 | A start is refused without any effect exactly if the tailnet is not stopped; otherwise the intent is on, in the config, and saved with the given outcome, whatever happens next. |
| Effects.StartStages | internal/ts/tailnet.go:147-218 | For each of the five ways a start can go: the handles it opens, closes again or keeps, the resulting fields, and who is told. |
| Effects.StopRecordsIntent | internal/ts/tailnet.go:221-240 | A stop is refused without any effect exactly outside Connected, Started, NeedsLogin and NeedsMachineAuth; otherwise it ends in Stopped with the intent off, in the config and saved, and announces. |
| Effects.StopCloses | internal/ts/tailnet.go:244-282 | A stop adds one close of the proxy, and if that succeeds one of the watcher and one of the server; it succeeds and empties the three fields exactly if proxy and server close. |
| Effects.LogoutByState | internal/ts/tailnet.go:297-307 | A logout goes in flight exactly in Connected, Stopped, Started and NeedsMachineAuth, has nothing to do exactly in NeedsLogin, and is refused exactly in LoggingOut and HasTerminalError. |
| Effects.LogoutInFlight | internal/ts/tailnet.go:309-328 | In flight: LoggingOut is shown, the intent is off, in the config and saved, the held server is used or a new one made, and nothing is closed. |
| Effects.LogoutReturns | internal/ts/tailnet.go:330-337 | The deferred end sets Stopped and announces, and changes nothing else. |
| Effects.CallbackStores | internal/ts/tailnet.go:527-574 | The peers, reported hostname and login address after a callback of every running tailnet, and exactly when it announces. |
| Effects.CallbackHandsOver | internal/ts/tailnet.go:428-436 | A callback that ends terminal hands over exactly the handles held and empties the fields; any other keeps them; in Stopped and LoggingOut it does nothing. |
| Effects.CallbackClaims | internal/ts/tailnet.go:493-525 | Without a collision a callback changes the registry by a claim only: suffix in the config, saved, broadcast if the save succeeds. |
| Effects.CollisionRecords | internal/ts/tailnet.go:576-597 | A collision puts error and disabled intent into the config and saves each that is new, the error first. |
| Effects.FinishCloses | internal/ts/tailnet.go:616-635 | The end of a callback adds exactly one close of each handle handed over, and announces exactly if there was a change. |
| Effects.ClaimOutcomes | internal/registry/registry.go:70-103 | The four outcomes of a claim: when each occurs, and what it does to configs, file and broadcasts. |
| Effects.AddOutcomes | internal/registry/registry.go:257-319 | The outcomes of an add: the exact new config and object (port found, hostname asked for or made from the machine's name), file and broadcast; or the registry as it was. |
| Effects.DeleteOutcomes | internal/registry/registry.go:322-352 | A delete takes exactly one config out, saves with the given outcome and broadcasts; an unknown id changes nothing. |
| Effects.SnapshotShows | internal/ts/tailnet.go:114-133 | A snapshot shows the reported hostname whenever there is one, else the configured one, and the other fields as they are. |
| Effects.DashboardShows | internal/ts/watcher.go:150-176 | After merging and delivering any stream of notifications, a connected tailnet shows the peers of the last net map, a running one the name in it, and one that enters NeedsLogin the last address sent. |
| Effects.SavedRunIsSynced | internal/registry/registry.go:182-202 | If every save of a run succeeds, the file holds exactly the registry after every step. |
| Effects.SavedRunRestores | internal/registry/registry.go:226-252 | So a restart after any such run rebuilds the registry and attempts exactly the wanted tailnets. |
| Effects.StartIsRemembered | internal/registry/registry.go:152-165 | A tailnet switched on with that intent saved is attempted after a crash if and only if it has no recorded error, however far the start got. |
| Effects.StopIsRemembered | internal/registry/registry.go:152-165 | One switched off by a stop with that saved is known after a crash and not attempted. |
| Effects.LogoutIsRemembered | internal/ts/tailnet.go:309-311 | The same for a logout in flight. |
| Effects.DeleteIsRemembered | internal/registry/registry.go:338-344 | After a saved deletion the file holds the other configs, and the next process knows exactly the other tailnets. |
| Announcements.FalseMeansUnchanged | internal/ts/processor.go:30-42 | When Process returns false, for any lists of operations, no field of the tailnet has changed. |
| Announcements.ChangesAreAnnounced | internal/ts/tailnet.go:369-458 | Every step but a silent start that changes a tailnet's snapshot broadcasts that tailnet in the same step, or is a callback that now owes the broadcast. |
| Announcements.StartAnnouncesExactly | internal/ts/tailnet.go:136-219 | A start announces what it changes if and only if it is not silent: stopped, intent off, and only the watcher cannot be created. |
| Announcements.NoSilentChange | internal/ts/tailnet.go:369-458 | Over every run without a crash and without a silent start, a snapshot that differs from what it was has been announced in between or is owed by a callback in flight; with no callback in flight it has been announced. |
| Announcements.DebtIsPaid | internal/ts/tailnet.go:438-443 | What a callback owes stays owed through every step until that callback ends with the broadcast. |
| Announcements.FinishAnnounces | internal/ts/tailnet.go:436-443 | The end of a callback broadcasts its tailnet exactly if the callback changed something, and nothing else. |
| Announcements.PromptSubscriberHears | internal/sse/sse.go:66-91 | After such a run a subscriber that joined before it and never lets ten events wait has received, or has waiting, an event for every tailnet whose snapshot changed. |
| Announcements.SubscriberHearsOrWasFull | internal/sse/sse.go:80-88 | Any other subscriber has it too, or ten events were waiting for it when that tailnet was announced. |
| Announcements.SilentStart | internal/ts/tailnet.go:208-211 | The exception: a start whose watcher cannot be created broadcasts nothing, has changed the snapshot if and only if the user's intent was off, and leaves its listener open in no field. |
| Restarts.RestartPreservesIntent | internal/registry/registry.go:226-252 | If the last save succeeded, the tailnets on which a restart attempts Start are exactly those that were user-enabled without terminal error at the crash; ids, ports, hostnames, suffixes and errors survive. |
| Restarts.RestartIsSafe | internal/registry/registry.go:106-148 | Whatever readable file a crash leaves behind, the rebuilt process satisfies the system invariant and its counter is past every id and not above the old one. |
| Restarts.RestartForgetsTheRest | internal/registry/registry.go:51-68 | A new process takes over the file and nothing else: its tailnets are those in the file, without handles, and there are no events, listeners or calls in flight. |
| Restarts.IdsNeverReused | internal/registry/registry.go:257-319 | Within one process no id is used for a second tailnet object, deleted ones included, and the counter grows by exactly one per add, failing adds included. |
| Restarts.StateDirsDiffer | internal/registry/registry.go:257-264 | In every reachable state two registered tailnets have different state directories, so that deleting one tailnet's directory never removes another's. |
| Unconfigured.OneUnconfigured | internal/web/handlers.go:197-205 | If add requests do not overlap, every reachable state, restarts included, has at most one registered tailnet without a suffix in its config, and none right after a successful claim by that one. |
| Unconfigured.ClaimLeavesNoneExactly | internal/registry/registry.go:97-100 | If add requests do not overlap, a successful claim leaves no unconfigured tailnet, as it announces, if and only if the claimant's config had no suffix or no tailnet was unconfigured. |
| Unconfigured.ClaimLeavesNone | internal/registry/registry.go:86-100 | In any state: a successful claim leaves none if and only if every other registered tailnet has a suffix. |
| Unconfigured.ClaimStillLeavesOne | internal/registry/registry.go:86-100 | A run without overlapping add requests whose last claim succeeds and is announced while a second tailnet is unconfigured: the save of an earlier claim of the claimant had failed. |
| Unconfigured.AddKeepsItExactly | internal/registry/registry.go:257-319 | One add keeps that promise if and only if it fails or no tailnet was unconfigured at that moment. |
| Unconfigured.OverlappingAddsBreakIt | internal/web/handlers.go:197-212 | Two overlapping add requests pass the check together and leave two unconfigured tailnets. |
| Ports.ListenersOwned | internal/ts/tailnet.go:151-216 | With exclusive ports and successful closes, a listener is open exactly when it is in its tailnet's proxy field or in a cleanup about to close it; it uses the tailnet's port; no tailnet has two. |
| Ports.StartAfterLogoutFails | internal/ts/tailnet.go:333-337 | A stopped tailnet that still holds its proxy (after logging out while running) cannot be started: the start fails and neither opens nor loses a handle. |
| Ports.LoggedOutCannotStart | internal/ts/tailnet.go:294-337 | The run: a running tailnet is logged out, with any steps of anybody between the two halves, and started again; it is stopped with its old proxy in its field, and the start fails. |
| Storage.SaveLoadRoundTrip | internal/registry/registry.go:182-202 | Loading what was saved, in any order of the records, rebuilds the same map and sets the counter to one past the largest id. |
| Storage.CounterIsNextID | internal/registry/registry.go:120-145 | The counter that the loading loop computes depends on the set of ids only. |
| Service.Registry.Claim | internal/registry/registry.go:70-103 | The method does to config map, file and broadcasts what the specification says, in all four outcomes; the config keeps the suffix when the save fails. |
| Service.Registry.AnyClaimed | internal/registry/registry.go:74-79 | The loop over the map finds a suffix if and only if some config holds it. |
| Service.Registry.HasUnconfiguredTailnets | internal/registry/registry.go:367-377 | True if and only if some registered config has no suffix. |
| Service.Registry.SaveLocked | internal/registry/registry.go:182-202 | The list written in arbitrary map order stands for the whole config map; a failed save leaves the file as it was or unreadable. |
| Service.Registry.OnUserStateChange | internal/registry/registry.go:152-165 | Mirrors the user's intent into the config of a registered tailnet and saves; unregistered ids change nothing. |
| Service.Registry.OnTerminalErrorChange | internal/registry/registry.go:167-180 | The same for the recorded error. |
| Service.Registry.Load | internal/registry/registry.go:106-148 | A missing or unreadable file changes nothing; otherwise map, counter and fresh tailnet objects are those of the decoded records. |
| Service.Registry.Rebuild | internal/registry/registry.go:122-145 | The loop builds one object and one entry per distinct id, the last record winning, and ends with the counter past every id. |
| Service.Registry.Add | internal/registry/registry.go:257-319 | The id is used up in any case; a tailnet is registered only if a port is found and the save succeeds, and the registration is rolled back otherwise. |
| Service.Registry.Enroll | internal/registry/registry.go:303-316 | Register, save, broadcast; or undo the registration when the save fails. |
| Service.Registry.Delete | internal/registry/registry.go:322-352 | Removes the entry and announces it even if the save fails; an unknown id changes nothing. |
| Service.Registry.Get | internal/registry/registry.go:355-364 | The registered tailnet, or none. |
| Service.Registry.List | internal/registry/registry.go:205-220 | All registered tailnets by ascending id, whatever the order of the map walk. |
| Service.Registry.IDs | internal/registry/registry.go:209-217 | The walk in any order followed by the sort gives the one ascending list of the registered ids. |
| Service.Registry.RestoreEnabledTailnets | internal/registry/registry.go:226-252 | The loop attempts exactly the tailnets of its list that are stopped and wanted, and its effect is that of these starts, in ascending order, as steps of the system. |
| Service.AttemptsAreRestored | internal/registry/registry.go:229-237 | The attempted ids are ascending and are exactly the listed tailnets that are user-enabled and stopped. |
| Ids.SortedIsAscending | internal/registry/registry.go:214-217 | Sorting distinct ids gives a strictly ascending list of the same ids. |
| Ids.AscendingUnique | internal/registry/registry.go:214-217 | A set of ids has only one ascending list, so the listing does not depend on the map order. |
| Service.TailnetObject.constructor | internal/ts/tailnet.go:72-104 | A tailnet is terminal and disabled if and only if an error was recorded, else stopped with the recorded intent. |
| Service.TailnetObject.Start | internal/ts/tailnet.go:136-219 | Fields, host, file, broadcasts and result after every combination of outcomes of listen, server start, LocalClient, watcher and closes. |
| Service.TailnetObject.BringUp | internal/ts/tailnet.go:150-218 | The stages after the intent is recorded: what each failure closes, sets and announces. |
| Service.TailnetObject.Stop | internal/ts/tailnet.go:221-283 | The same for a stop; it ends in Stopped also when a close fails, and then keeps its handle fields. |
| Service.TailnetObject.CloseAll | internal/ts/tailnet.go:242-274 | The order of the closes and where a failing one ends them. |
| Service.TailnetObject.LogoutBegin | internal/ts/tailnet.go:294-328 | The states in which a logout is a no-op, refused, or goes in flight with LoggingOutState set, the intent off and a server present. |
| Service.TailnetObject.Logout | internal/ts/tailnet.go:294-356 | An uninterrupted logout is the two halves in order; its result is that of the network calls. |
| Service.TailnetObject.Dial | internal/ts/tailnet.go:358-367 | Refuses unless connected; a connected tailnet that meets the invariant of its handles uses a server that is present and unclosed. |
| Service.TailnetObject.Snapshot | internal/ts/tailnet.go:114-133 | What readers see of a tailnet, with the reported hostname in front of the configured one. |
| Service.TailnetObject.SetTerminalErrorLocked | internal/ts/tailnet.go:576-597 | Records and mirrors the error and the disabled intent only where they are new, and reports whether anything changed. |
| Service.TailnetObject.MaybeClaimMagicDNSSuffixLocked | internal/ts/tailnet.go:493-525 | Claims only a non-empty suffix for a tailnet that has none; a duplicate is a terminal error, a failed save is not. |
| Service.TailnetObject.Plan | internal/ts/tailnet.go:379-430 | Which operations run always and which compete in each state. |
| Service.TailnetObject.ReactLocked | internal/ts/tailnet.go:369-436 | The locked part of a callback equals the specification, handles moved out exactly in the terminal state. |
| Service.TailnetObject.ReactToIPNStateChange | internal/ts/tailnet.go:369-444 | The whole callback: locked part, cleanup, then announcement. |
| Service.IpnProcessor.Process | internal/ts/processor.go:30-42 | All Always operations run; OneOf operations run up to the first that reports a change, also after a terminal error. |
| Handlers.NewRegistry | internal/registry/registry.go:51-68 | Fails if and only if the file is unreadable; otherwise the registry and its objects are exactly what loading that file makes of a new process, whatever its broadcaster and host. |
| Handlers.StartUp | cmd/tailhopper/main.go:48-57 | In a new process with a new broadcaster: the concrete registry after restoring is the state of the run model after the crashed history, a restart and the attempted starts; if the last save had succeeded, exactly the tailnets wanted at the crash are attempted. |
| Handlers.AddTailnet | internal/web/handlers.go:187-229 | When a request conflicts, fails or creates, and the whole state after each. |
| Handlers.DeleteTailnet | internal/web/handlers.go:87-184 | The tailnet goes in any case; terminal tailnets skip the logout; the toast is a success exactly when nothing was to be logged out or the logout was accepted. |
| Installation.Play | internal/ts/tailnet.go:136-444 | Every run of the run model, crashes and restarts included, is carried out by the methods of the classes, and leaves objects, registry, file, host, broadcasts and calls in flight exactly as the model says. |
| Installation.Process.Perform | internal/registry/registry.go:70-352 | One step of the run model is one call of a method: adds, starts, stops, both halves of a logout, both parts of a callback, deletes. |
| Ipn.LastNotificationWins | internal/ts/watcher.go:150-176 | After any stream of notifications every merged field is the last value sent for it, the three net-map fields come from one net map, and the suffix is the last non-empty one. |
| Ipn.SuffixNeverErased | internal/ts/watcher.go:160-171 | A suffix once known never becomes empty again. |
| Ipn.ExtractSplitsFirstLabel | internal/ts/watcher.go:180-187 | Extraction drops one trailing dot and the first label, and nothing else. |
| Ipn.Watcher.Observe | internal/ts/watcher.go:72-90 | The loop delivers, one per notification, the folds of all prefixes of the stream. |
| Ipn.Watcher.Close | internal/ts/watcher.go:96-104 | However often it is called, the context is cancelled once. |
| PacText.RoundTripExactly | internal/pac/pac.go:28-53 | The emitted text parses back to exactly the rules, in order, if and only if no suffix contains a quote, a backslash, a line feed or a carriage return. |
| PacText.RoutesRecovered | internal/pac/pac.go:36-49 | Suffixes and decimal ports of all non-empty rules are recovered from the text alone, in order. |
| PacText.ProxyValueRead | internal/pac/pac.go:46 | The proxy list of a clause reads back as SOCKS5, SOCKS and DIRECT with the tailnet's port. |
| PacText.BrowseWritten | internal/pac/pac.go:28-53 | Parsing, evaluating and reading the result of the emitted text gives the proxies of the first matching rule, else a direct connection. |
| Text.DecimalRoundTrip | internal/ts/tailnet.go:110-112 | A port printed in decimal reads back as itself. |
| Glob.DotSuffixExactlyWhenPlain | internal/pac/pac.go:45 | The pattern *.s matches exactly the hosts that end with a dot and s, for all hosts, if and only if s contains no star or question mark. |
| Glob.StarMatchesTails | internal/pac/pac.go:45 | The matcher agrees with the independent reading of a star as any text. |
| Routing.RoutedToFirstMatch | internal/pac/pac.go:55-62 | For every reachable registry whose suffixes can be quoted and every host: interpreting the served text gives the proxies of the lowest-numbered tailnet whose pattern matches, else DIRECT. |
| Routing.RoutedToLowest | internal/pac/pac.go:55-62 | The same with "the host ends with a dot and the suffix" in place of the pattern, when no suffix holds a glob character. |
| Routing.BothServeOnlyIfNested | internal/pac/pac.go:36-49 | Two suffixes match the same host only if they are equal or one ends with a dot and the other. |
| Routing.NameReachesItsTailnet | internal/ts/watcher.go:178-187 | Every name whose extracted suffix is claimed is routed to exactly the claimant, unless a tailnet with a lower id has claimed a suffix nested in it. |
| Routing.NestedTakesTheName | internal/pac/pac.go:36-49 | Conversely the lowest-numbered tailnet with a nested suffix takes the name, which then reaches its own tailnet if and only if the two have the same port. |
| Routing.TrailingDotGoesDirect | internal/pac/pac.go:45 | A host written with its trailing dot is connected directly. |
| Routing.BuildPACForTailnets | internal/pac/pac.go:28-53 | The loop with its string builder writes the text of the routing theorems and returns the suffixes it wrote. |
| Routing.ServePAC | internal/pac/pac.go:55-62 | The handler serves the text that the routing theorems are about, a function of the registered ids and tailnets only. |
| Sse.DeliversInOrder | internal/sse/sse.go:80-88 | What a subscriber has received followed by what is buffered is an order-preserving selection of the broadcasts since it joined, at most ten buffered. |
| Sse.LostOnlyWhenFull | internal/sse/sse.go:80-88 | A broadcast is lost to a subscriber if and only if ten events were waiting when it was made. |
| Sse.DeliveredOrLost | internal/sse/sse.go:80-88 | Every broadcast was received or is waiting, or ten events were waiting when it was made. |
| Sse.PromptReaderMissesNothing | internal/sse/sse.go:38 | A reader that never lets ten events wait receives everything. |
| Sse.SSEBroadcaster.Subscribe | internal/sse/sse.go:34-51 | A new number and an empty channel that follows the broadcasts from now on. |
| Sse.SSEBroadcaster.Unsubscribe | internal/sse/sse.go:54-63 | Removes exactly that channel; an unknown one changes nothing. |
| Sse.SSEBroadcaster.Broadcast | internal/sse/sse.go:66-91 | Every channel is offered the event, full ones skip it, and each remains the outcome of its own history. |
| LogFields.ParseLogKeyValues | internal/ts/tailnet.go:657-684 | The loops compute the attributes and the cleaned message of the tokens, and merging the attributes back into the cleaned message's tokens in order gives the tokens of the message. |
| LogFields.SplitMergesBack | internal/ts/tailnet.go:661-683 | Attributes rendered as key=value and clean tokens, merged in order, are exactly the white-space fields of the message. |
| LogFields.SplitIsUnique | internal/ts/tailnet.go:661-683 | There is no other way to part the tokens into key=value tokens and the rest. |
| LogFields.CleaningIsIdempotent | internal/ts/tailnet.go:657-684 | Parsing the cleaned message again yields no attributes and the same string. |
| LogFields.FieldsOfJoin | internal/ts/tailnet.go:683 | Splitting a join of non-empty space-free tokens gives the tokens back. |
| LogFields.FieldsKeepEveryLetter | internal/ts/tailnet.go:661 | Splitting loses nothing but white space. |
| LogFields.ValidKey | internal/ts/tailnet.go:669-675 | The check of a key's characters. |
| LogFields.AttrExactly | internal/ts/tailnet.go:662-680 | A token becomes an attribute exactly if it is a non-empty key of letters, digits, underscores, hyphens and dots, an equals sign, and any value. |
| LogFields.TsnetLog | internal/ts/tailnet.go:637-655 | The record carries all attributes; its message has the clean tokens, or all tokens when there are no clean ones; it is empty only for an input of line breaks. |
| LockUse.NoProcessDeadlocks | internal/ts/tailnet.go:221-283 | Any number of handlers, callbacks, connections and subscribers, interleaved in any way, do at most the work there is and stop only when every started goroutine has finished and no lock is held. |
| LockUse.NestedIsOrdered | internal/registry/registry.go:150-180 | Whatever block-structured code executes keeps the lock order of the code around it. |
| LockUse.CodeOf | internal/web/handlers.go:20-229 | The lock use of every handler, goroutine and of main respects t.mu before m.mu before b.mu, with w.mu and logMu as leaves; a callback may come from another watcher than the one the tailnet holds. |
| LockUse.Stop | internal/ts/tailnet.go:221-283 | A stop takes m.mu, b.mu, w.mu and logMu under t.mu and joins the watcher while it holds t.mu, within the lock order. |
| LockUse.Start | internal/ts/tailnet.go:136-219 | The same for a start, which spawns the watcher under t.mu. |
| LockUse.Callback | internal/ts/tailnet.go:369-444 | The same for a callback: the claim under t.mu, the cleanup and the broadcast after it. |
| Locks.NoDeadlock | internal/ts/tailnet.go:471-473 | The same for any threads that keep the lock order: the steps left decrease, and a state in which nobody can move is finished. |
| Locks.RunKeepsInv | internal/registry/registry.go:150-152 | Every run keeps the lock order, no thread re-acquires a lock, and a lock has one writer or readers. |
| Locks.SomebodyMoves | internal/ts/watcher.go:107-119 | In any state with an unfinished thread, following the holders of the wanted locks leads to a thread that can move. |
| Locks.WithoutTimerForever | internal/ts/watcher.go:113-119 | Without the five-second timer, a join whose target wants a lock of the joiner, or is the joiner itself, never returns, whatever the other threads do. |
| LockTimeout.StopNeedsItsTimer | internal/ts/watcher.go:107-119 | A run of one stop and one callback of the same tailnet reaches such a join. |
| LockTimeout.CleanupJoinsItself | internal/ts/tailnet.go:605-635 | A fatal collision in the goroutine of the watcher that the tailnet holds reaches a join of that goroutine by itself. |
| LockTimeout.CleanupWait | internal/ts/tailnet.go:605-635 | In every run of every process a watcher's goroutine waits only for the watcher that the tailnet held; it waits for itself, and without the timer for ever, if and only if that is its own; a wait for another ends by itself exactly when that goroutine has finished. |

## Left out

- The tsnet server, the local client, the IPN bus and the SOCKS protocol: arbitrary outcomes and arbitrary notifications.
- JSON syntax, directories, permissions and RemoveAll: a file is a list of records, or missing, or unreadable.
- Port discovery and hostname sanitization: an arbitrary port or none, an arbitrary machine name or none; ports of
  different tailnets may coincide.
- HTTP routing, parameters, templates, the dashboard and its sorting.
- Event names: an event is a constructor (global, or a tailnet and its id) and a subscriber is a number instead of the
  strings `global`, `tailnet-7` and `client-3`; a registry without a broadcaster is not modelled.
- Service.IpnProcessor.Process: operations are named by an enumeration instead of being function values.
- Sse.SSEBroadcaster.Broadcast: one step; the gap between copying the channels under the lock and sending to them, in
  which a subscriber may come or go, is not modelled.
- Routing.ServePAC: one registry state; the source takes one snapshot per tailnet, between which others may change.
- Service.TailnetObject.Start: the goroutine that serves the proxy and the connections through it appear in the lock
  model only. The same holds for the watcher's goroutine of a started tailnet, whose callbacks are steps of the system.
- Service.TailnetObject.ReactToIPNStateChange: between several registry sections of one callback no other tailnet's
  registry section is interleaved; each such section alone is a step of its own in the lock model.
- Service.TailnetObject.LogoutBegin: which files the server that Logout creates uses, and whether it starts.
- Ports.ListenersOwned: leak freedom of servers and watchers is not claimed; a start after a logout may overwrite a held
  server.
- Safety.SuffixesUnique: about registered tailnets; an object that was deleted while a call held it keeps its suffix and
  cannot claim again.
- Installation.Play: the calls are made one after another, one step at a time; the goroutines that make them are in the
  lock model.
- Locks.NoDeadlock: I/O is taken to end by itself, timers to fire, and loops to run any finite number of rounds.
- LogFields.ParseLogKeyValues: text is a sequence of Unicode characters; invalid UTF-8 is not modelled.
- Pac.ParseProgram: reads the subset of JavaScript that the writer emits, not JavaScript. String literals follow
  section 11.8.4 of ECMAScript 2019; earlier editions also end them at U+2028 and U+2029.
- Ipn.Watcher.Close: cancels only; the wait for the goroutine and its five-second limit are in the lock model.
