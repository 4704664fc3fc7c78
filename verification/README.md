# Friday: verified models of the FSM engine and its neighbours

A Dafny 4.11 model of the parts of Friday where state and order matter, with proofs about every input, every run or
every interleaving. Check it with `dafny verify dfyconfig.toml`.

## What is modelled

**The FSM engine** (`FsmDefinition`, `SkipChain`, `FsmTransaction`, `FsmSeeds`, `FsmEdits`, `FsmCommit`, `FsmRuns`,
`FsmDrain`, `FsmStart`, `FsmRestart`, `FsmCarry`, `FsmBound`, `FsmEngine`). `FsmTransaction` says on values what one
dequeued signal does: handler lookup, skip chain, actions on copies, commit, store calls. `FsmEngine` is the engine as
a class whose methods edit its fields in loops; each method is proved equal to the function on values, and the
theorems (atomicity, conservation, bound, safety, restart, carried input) are proved about those functions.
`FsmEdits`, `FsmCommit`, `FsmDrain` and `FsmStart` say what a commit, a drain and a first run did without naming those
functions: by the record of calls, events and signals. `emit` is concrete. `llm`, `agent` and `notification` actions
are an arbitrary function of the number of calls made and of what they are shown: they return a list of edits (store
an output, set a result, create, update or delete a document, emit), signals that arrive while they run, and whether
they throw. Store calls are arbitrary too: they may fail, leave anything behind, fail to delete, and let signals
arrive.

**The validator** (`FsmValidator`): all checks as loops, with the breadth-first search proved to compute reachability,
and the report proved sound and complete.

**The tool allowlist** (`ToolAllowlist`): entry tables, servers to connect to, filter; MCP connections are an
arbitrary function from selected servers to connected ones.

**Two protocols as steps.** `HealthCache` holds the launcher's health record as a class, `HealthStream` its writers,
notifiers and stream consumers interleaving at lock sections. `PrewarmCache` holds the MCP tool cache with overlapping
probes; `ConfigHash` proves that the hash text is exact, down to the characters of the JSON text.

**Streams, text and counting.** `LogTail` (chunked log reading), `UploadSteps`, `UploadRuns` and `ChunkedUpload` (a
session as a state machine, and the sessions as classes in a map), `DotEnv`, `CertEnv`, `UrlSchemes`, `UrlHosts` and
`ExternalUrls` (the `.env` file written in TypeScript, read and edited in Go, over the shared `Lines`), `Readiness`
(restart budget), `CrashGuard` (spawn window).

## Where the code and its promises differ

- A stored carried input with an array payload does not parse again, so the next cascaded signal sees its own data
  (`FsmCarry.FirstCommitCarries` gives the exact equation).
- Tool filtering goes by name: an allowed tool can be taken over by a later server with a tool of the same name
  (`ToolAllowlist.ExposedToolsAreNamed` gives the exact condition).
- Invalidating the tool cache does not reach a running probe: the source accepts that of a background probe, and a
  foreground one does the same (`PrewarmCache.InvalidationHolds`). Joining a prewarm looks only at the slot
  (`PrewarmCache.EqualProbeJoined`). A superseded probe that ends last throws out its successor's entry, which the
  source calls harmless, and so does a foreground probe that began earlier (`PrewarmCache.FoundToolsStayVisible`).
- A value with a single quote next to a backslash or a double quote is escaped by the writer and not unescaped by the
  reader (`DotEnv.RoundTrip`).
- The comment on `swapURLScheme` says that trailing carriage returns are preserved; behind a bare loopback host they
  also keep the URL from being brought in line, and so do quotes around it (`UrlSchemes.MigratedInLine`).
- The loopback scan follows the text after the scheme, not the host of the URL: user information, an upper-case letter
  and a query straight after the host mislead it (`UrlHosts.ScanAgreesExactly`). So the promise never to downgrade an
  external URL fails for one with the user `localhost` (`ExternalUrls.ExternalStays` gives the exact condition).
- A stored document that cannot be read when an engine starts is skipped with a warning and then deleted as stale
  (`FsmRestart.StartKeepsReadable`).
- The comment on `deriveStatus` lists a completed process under `starting`; the code makes it `failed` once the
  restarts are used up, and the model follows the code.
- The comment on `spawnDaemon` speaks of more than the maximum of respawns; the code gives up once the maximum lies in
  the window, the first start included, and the model follows the code.

## Model

| member | source | states |
|---|---|---|
| FsmTransaction.ThrowTakesNothing | packages/fsm-engine/fsm-engine.ts:951-1029 | Atomicity, failing half: whatever throws before the commit (bad skip chain, any action at any position, invalid seed document) leaves documents, results, state, events, store and commit log as they were after the signal was dequeued, and drops what was emitted: the queue gains exactly the signals that others sent during the foreign calls of the step, in order, and nothing at all when the chain is refused. A step without a handler changes nothing. |
| FsmTransaction.CommitTakesAll | packages/fsm-engine/fsm-engine.ts:1030-1050 | Atomicity, succeeding half: once the actions are done all five pending pieces take effect together, results cleared exactly when the new state is the initial one, the target being the resolution of the skip chain, whether or not the store calls after the commit succeed. The queue gains exactly the arrivals of the actions, the emitted signals, and the arrivals of the saves, in that order. (What the pieces are: `FsmCommit.CommitDid`.) |
| FsmCommit.CommitDid | packages/fsm-engine/fsm-engine.ts:951-1050 | What a committed step did, read off the record of the run: it took the first transition listed; the foreign calls are those of the transition's own actions, in the old state, and then those of the new state's entry actions, in the new one, in order, for this signal, and none threw; its events are those of both lists in order; it sent exactly what both lists and the edits of the calls asked for, under the signal's context and data; documents and results follow, call by call, from the edits, with the first document of every missing id of the new state put in between, each of them valid. |
| FsmCommit.FailureDid | packages/fsm-engine/fsm-engine.ts:951-1028 | And why a transition threw: the last call threw or asked for a refused edit, the calls before it being those of the lists in order; or a document of the new state is not valid, and no entry action ran. |
| FsmCommit.CommitSkipped | packages/fsm-engine/fsm-engine.ts:879-947 | Through which states a commit went: those the signal asks to skip, each leading on to the next only, to one that stays; one skip event for each. |
| FsmCommit.IgnoredExactly | packages/fsm-engine/fsm-engine.ts:851-876 | A step does nothing exactly when the state lists no transition for the signal. |
| FsmEdits.EditMeaning | packages/fsm-engine/fsm-engine.ts:2517-2580 | An edit is refused exactly when it creates what is there, updates what is not, or would leave invalid data; otherwise it changes its own document or result as it says, key by key, and no other. |
| FsmEdits.EditsMeaning | packages/fsm-engine/fsm-engine.ts:1262-1290 | The edits of a reply are applied in order up to the first that is refused. |
| FsmTransaction.FailureHasPosition | packages/fsm-engine/fsm-engine.ts:1162-1174 | A list of actions fails exactly when some action fails after all before it succeeded. |
| FsmTransaction.ExecuteActionsShares | packages/fsm-engine/fsm-engine.ts:1131-1179 | All actions of a list see the same input, which is stored for later states when the list succeeds; exactly the signals sent during its calls arrived. |
| FsmTransaction.SeedMissingKeeps | packages/fsm-engine/fsm-engine.ts:997-1007 | Entering a state adds its own documents without replacing one that is there; only an invalid seed document fails. |
| FsmSeeds.SeedsPut | packages/fsm-engine/fsm-engine.ts:997-1007 | The first document of every missing id is put in and nothing else changes; it fails exactly when one of those is not valid. |
| FsmTransaction.NoContextNoSkips | packages/fsm-engine/fsm-engine.ts:879-900 | A signal without a context skips nothing. |
| FsmTransaction.SaveAllMoves | packages/fsm-engine/fsm-engine.ts:1048-1050 | The store calls after the commit change the store and nothing that was committed, even when they fail. |
| FsmTransaction.StepShape | packages/fsm-engine/fsm-engine.ts:844-1050 | A step goes one of four ways: no handler; refused, with the error and the skip events of the chain from the handler's target; failed in its actions; or committed. |
| FsmTransaction.ShapeIsUnique | packages/fsm-engine/fsm-engine.ts:844-1050 | And one way only: the shape of a step is determined. |
| FsmTransaction.CircularMeansRevisit | packages/fsm-engine/fsm-engine.ts:891-901 | A step raises the circular error exactly when the walk from the handler's target over skipped states comes back to one of them. |
| SkipChain.ResolveTarget | packages/fsm-engine/fsm-engine.ts:891-947 | The loop returns a resolution of the skip chain, for any definition and any skip list, with the skipped states in order. |
| SkipChain.ResolutionIsUnique | packages/fsm-engine/fsm-engine.ts:891-947 | There is one resolution only: the first state on the unique-successor walk that is not listed, or is initial or final; or the circular error exactly when the walk revisits a skipped state; or the error of a state without a single successor. |
| SkipChain.ResolutionMeans | packages/fsm-engine/fsm-engine.ts:891-947 | What each outcome says about the definition: a landing comes by states that are listed, not initial and not final, each with one event and one transition to the next, to a state that is not listed, or is initial or final; a circle runs back into itself; a dead end has the state that cannot go on, and why. |
| SkipChain.WalkIsShort | packages/fsm-engine/fsm-engine.ts:892-902 | The walk ends within the number of distinct listed states. |
| SkipChain.TakeHop | packages/fsm-engine/fsm-engine.ts:918-946 | A skipped state has a next hop exactly when it has one handler with one transition; otherwise the matching error. |
| FsmRuns.SendConserves | packages/fsm-engine/fsm-engine.ts:789-824 | One signal: nothing pushed is lost or reordered, at most 101 signals are taken off the queue whatever is emitted, `_processing` is false afterwards; a normal return left the queue empty and reports the number handled and whether a commit happened; the cascade error means 101 were handled and the rest still waits. What was pushed is the signal, then per commit the arrivals of its actions, its emits and the arrivals of its saves, then the arrivals of a transition that failed: failed transitions contribute no emits. |
| FsmDrain.SendTurns | packages/fsm-engine/fsm-engine.ts:704-824 | A whole signal told engine by engine: the queue is processed from the front, at most 101 signals, each from where the one before left off, after the carried input is cleared; it returns exactly when the queue ran empty with every signal processed, and otherwise raises what the last one threw or the cascade error. |
| FsmRuns.DrainCounts | packages/fsm-engine/fsm-engine.ts:799-813 | The same for the loop from any counter value. |
| FsmRuns.DrainPushes | packages/fsm-engine/fsm-engine.ts:799-813 | What a drain pushes, commit by commit, from any start. |
| FsmRuns.RunConserves | packages/fsm-engine/fsm-engine.ts:724-740 | Over every run of signals, seeded results and restarts: what was pushed since the last start is what was dequeued followed by what is queued, and no drain is left open. A restart forgets the queue. |
| FsmBound.BoundIsReached | packages/fsm-engine/fsm-engine.ts:799-805 | The bound is tight: a state that emits its own signal uses up all 101 turns and the 102nd raises. |
| FsmRuns.StepIsSafe | packages/fsm-engine/fsm-engine.ts:851-947 | For an accepted definition a step from a visited state ends on a visited state and never raises the invalid-state error. |
| FsmRuns.SendIsSafe | packages/fsm-engine/fsm-engine.ts:704-740 | The same for a whole signal with its cascades. |
| FsmRuns.SkipWalkIsSafe | packages/fsm-engine/fsm-engine.ts:891-947 | A skip walk follows edges of the validator, so it never leaves the visited states. |
| FsmRuns.RunIsSafe | packages/fsm-engine/fsm-engine.ts:844-947 | For an accepted definition, any store to start from, and any run with restarts, skips and failures, the engine stands on a state that the validator visited, and the next signal cannot raise the invalid-state error. |
| FsmRuns.InitChoosesState | packages/fsm-engine/fsm-engine.ts:599-609 | Starting takes the stored state when the definition has it and otherwise keeps the initial one. |
| FsmRuns.InitKeepsLogs | packages/fsm-engine/fsm-engine.ts:579-702 | Starting takes nothing off the queue and loses no signal that entry actions emit. |
| FsmStart.FirstRunLeaves | packages/fsm-engine/fsm-engine.ts:662-701 | The first run over an empty store: it comes up only if every document of the initial state is valid; the last document of each id is put in, then the entry actions are called in order, in that state, with the signal `__init__` and no input, each shown what the edits before it made; what is left in memory is what the last of them made. Otherwise it made the calls up to the one that failed, or none. |
| FsmStart.RestoredRunsNothing | packages/fsm-engine/fsm-engine.ts:626-692 | Over stored documents, or at a known state, a start runs no action and brings back exactly the readable documents. |
| FsmRestart.StepSyncs | packages/fsm-engine/fsm-engine.ts:2583-2626 | With working store calls a commit makes the store agree with memory, stale ids gone, whatever it held before. |
| FsmRestart.SendSyncs | packages/fsm-engine/fsm-engine.ts:704-740 | After any signal in which something was committed, also when it raised after that, and after any signal to a mirrored engine, the store holds exactly the documents and the state in memory. |
| FsmRestart.RestartRoundTrip | packages/fsm-engine/fsm-engine.ts:579-702 | A new engine over a mirrored store comes up at the same state with the same documents, without running an action. |
| FsmRestart.RestartNeedsKnownState | packages/fsm-engine/fsm-engine.ts:600-609 | The condition is needed: a state that the definition does not have is not given back. |
| FsmRestart.StartKeepsReadable | packages/fsm-engine/fsm-engine.ts:626-662 | Exactly which documents survive the start of a new engine over a store that holds some: those that can be read, and unreadable ones whose deletion as stale fails; the state stored is untouched. The store is unchanged exactly when all can be read or could not be deleted. |
| FsmRestart.RestartDropsUnreadable | packages/fsm-engine/fsm-engine.ts:639-642 | A restart gives back exactly the readable documents, all of them only when every one is readable; an unreadable one does not come back on a later start that could read it. |
| FsmRestart.InitSyncs | packages/fsm-engine/fsm-engine.ts:620-701 | After starting, the store agrees exactly when it named a known state, or was empty, or named the state where the engine starts. |
| FsmRestart.RunThenRestart | packages/fsm-engine/fsm-engine.ts:579-740 | For an accepted definition a started engine stays mirrored over every run, so a restart at any point gives back state and documents. |
| FsmCarry.StepCarries | packages/fsm-engine/fsm-engine.ts:1030-1038 | Under a carried input every action of a step sees it, and it stays unless a commit lands on the initial state. |
| FsmCarry.DrainCarries | packages/fsm-engine/fsm-engine.ts:1131-1179 | Within a drain, once an input is carried, every later action sees that same input whatever data cascaded signals bring, until a commit lands on the initial state. |
| FsmCarry.DrainStartsClean | packages/fsm-engine/fsm-engine.ts:795 | A new drain starts with nothing carried; other results stay. |
| FsmCarry.FirstCommitCarries | packages/fsm-engine/fsm-engine.ts:1030-1038 | What the next signal sees after the first commit, in every case: the data of the committed signal exactly when its payload is an object, the commit did not land on the initial state and some action list ran; otherwise its own data. |
| FsmCarry.SeedParses | packages/fsm-engine/fsm-engine.ts:1133-1162 | A stored input parses again exactly when its payload is an object. |
| FsmCarry.SeedMeans | packages/fsm-engine/fsm-engine.ts:1140-1162 | The input made from a signal, field by field. |
| FsmCarry.ArrayPayloadIsLost | packages/fsm-engine/fsm-engine.ts:1133-1136 | A concrete pair of cascaded signals with two different inputs. |
| FsmEngine.FSMEngine.ExecuteAction | packages/fsm-engine/fsm-engine.ts:1185-1310 | `emit` as written; foreign actions through their edits, failing where the engine's own checks throw. |
| FsmEngine.FSMEngine.RunActionList | packages/fsm-engine/fsm-engine.ts:1113-1183 | The list of actions on the pending copies, with the shared input. |
| FsmEngine.FSMEngine.Enter | packages/fsm-engine/fsm-engine.ts:997-1028 | Seed documents, then entry actions of the target. |
| FsmEngine.FSMEngine.CommitPending | packages/fsm-engine/fsm-engine.ts:1030-1046 | All five pieces of the commit. |
| FsmEngine.FSMEngine.PersistDocuments | packages/fsm-engine/fsm-engine.ts:2595-2626 | Every document written, then stored ids that are gone deleted; a failed delete is only logged. |
| FsmEngine.FSMEngine.PersistExecutionState | packages/fsm-engine/fsm-engine.ts:2583-2593 | The state written. |
| FsmEngine.FSMEngine.ProcessSingleSignal | packages/fsm-engine/fsm-engine.ts:844-1050 | The whole transaction in place equals the step on values. |
| FsmEngine.FSMEngine.DrainQueue | packages/fsm-engine/fsm-engine.ts:799-813 | The loop with its counter equals the drain on values; a throw leaves the rest of the queue. |
| FsmEngine.FSMEngine.ProcessQueue | packages/fsm-engine/fsm-engine.ts:789-824 | Counter, carried input and flag reset, loop, flag cleared on every exit. |
| FsmEngine.FSMEngine.Signal | packages/fsm-engine/fsm-engine.ts:704-740 | Queue, and drain unless a drain is running. |
| FsmEngine.FSMEngine.Initialize | packages/fsm-engine/fsm-engine.ts:579-702 | Restoring, first run, or nothing to do; documents always written. |
| FsmValidator.CheckReachability | packages/fsm-engine/validator.ts:116-145 | The search terminates with repeated queue entries; its visited set is exactly what is reachable from `initial` over all listed transitions; the unreachable list is exactly the rest. |
| FsmValidator.ValidateStructure | packages/fsm-engine/validator.ts:22-111 | `valid` exactly for accepted definitions; every reported problem holds and every problem that holds is reported; the warning exactly when types are referenced but none defined. |
| FsmValidator.MissingTargets | packages/fsm-engine/validator.ts:50-68 | Exactly the transitions with a missing target are reported. |
| FsmValidator.StuckStates | packages/fsm-engine/validator.ts:70-76 | Exactly the non-final states without handlers. |
| FsmValidator.ReferencedTypes | packages/fsm-engine/validator.ts:85-93 | Exactly the document types that some state refers to. |
| FsmValidator.UndefinedTypes | packages/fsm-engine/validator.ts:95-103 | Exactly the referenced types that are not defined. |
| FsmValidator.ReportDecides | packages/fsm-engine/validator.ts:110 | A sound and complete report is empty exactly for accepted definitions. |
| FsmValidator.AcceptedIffNoProblem | packages/fsm-engine/validator.ts:22-111 | Acceptance means that none of the listed problems holds. |
| FsmValidator.AcceptedInWords | packages/fsm-engine/validator.ts:22-111 | Acceptance in words: a declared initial state, some final one, all reachable, every listed target declared, a handler in every state that is not final, every document type defined if types are. |
| FsmValidator.AcceptedGoesOn | packages/fsm-engine/validator.ts:70-76 | An accepted definition has an event to go on with in every state that is not final. |
| FsmValidator.StuckMeans | packages/fsm-engine/validator.ts:70-76 | Reported as stuck are exactly the states that are not final and have no handler. |
| FsmValidator.FinalNeedsNoHandler | packages/fsm-engine/validator.ts:70-76 | A definition with final states without handlers, one of them reached by a transition listed second, is accepted, and rejected as soon as one of them is not final. |
| FsmValidator.ClosedCovers | packages/fsm-engine/validator.ts:120-139 | A set closed under edges that holds the initial state holds every state a walk reaches. |
| FsmValidator.ReachedBy | packages/fsm-engine/validator.ts:116-139 | A state is reachable exactly when it is initial or a transition of a reachable one leads to it. |
| FsmValidator.AcceptedCanFinish | packages/fsm-engine/validator.ts:33-48 | In an accepted definition a final state is reachable along edges. |
| ToolAllowlist.ReadEntries | packages/fsm-engine/fsm-engine.ts:2302-2321 | The loop over entries equals the table function. |
| ToolAllowlist.PermitsIsNamed | packages/fsm-engine/fsm-engine.ts:2429-2440 | The filter's test on the tables is the declared meaning of the entries: server named bare, `server/tool`, or bare tool name. |
| ToolAllowlist.OrderDoesNotCount | packages/fsm-engine/fsm-engine.ts:2302-2321 | Entry lists with the same entries give the same tables: neither order nor repetition counts. |
| ToolAllowlist.SelectServers | packages/fsm-engine/fsm-engine.ts:2327-2345 | The servers to connect to. |
| ToolAllowlist.SelectedCovers | packages/fsm-engine/fsm-engine.ts:2334-2345 | Every configured server with an allowed tool is connected. |
| ToolAllowlist.SelectedIsTight | packages/fsm-engine/fsm-engine.ts:2338-2345 | Without bare tool names no other server is connected. |
| ToolAllowlist.SelectedExactly | packages/fsm-engine/fsm-engine.ts:2327-2345 | The platform is always connected; another server exactly when it is configured and the entries mention it, or hold a tool name without a server. |
| ToolAllowlist.ScopeTools | packages/fsm-engine/fsm-engine.ts:2377-2442 | Platform filter and per-server filter in loops equal their meaning as a map. |
| ToolAllowlist.UnfilteredAgrees | packages/fsm-engine/fsm-engine.ts:2417-2418 | The branch that skips the filter exposes nothing more than the filter would. |
| ToolAllowlist.ExposedExactly | packages/fsm-engine/fsm-engine.ts:2377-2442 | For every entry list a tool name is exposed exactly when it passes the platform filter and some connected server has it and is the platform or was named for it. |
| ToolAllowlist.ExposedInWords | packages/fsm-engine/fsm-engine.ts:2302-2442 | Exposed exactly: no platform tool or a permitted one, on a connected server that is the platform, or for which an entry is `server/tool`, the configured server, or the bare tool name. |
| ToolAllowlist.MergedFromLast | packages/mcp/src/create-mcp-tools.ts:298-307 | Each merged tool is that of the last connected server that has its name. |
| ToolAllowlist.ExposedToolIsNamed | packages/fsm-engine/fsm-engine.ts:2417-2442 | For an exposed name the tool belongs to the platform or to a server named for it exactly when the last connected server that has the name is allowed to offer it. |
| ToolAllowlist.ExposedToolsAreNamed | packages/fsm-engine/fsm-engine.ts:2417-2442 | All exposed tools belong to servers that may offer them exactly when no allowed tool is taken over by a later server that is not allowed to offer it. |
| ToolAllowlist.DisjointNamesNoTakeover | packages/fsm-engine/fsm-engine.ts:2417-2442 | With tool names disjoint across servers there is no takeover. |
| ToolAllowlist.CollisionExposesUnnamedTool | packages/fsm-engine/fsm-engine.ts:2417-2442 | The condition can fail: for any two servers a name allowed for the first only is taken over by the second when both have it, and is exposed. |
| ToolAllowlist.BuildTools | packages/fsm-engine/fsm-engine.ts:2274-2442 | Entries, selection, connection and filter in sequence: the tools are the scoped map of what the selected servers offer. |
| PrewarmCache.ToolCache.InvalidateCache | apps/atlasd/routes/mcp-tool-cache.ts:111-113 | Drops the entry and leaves slots alone. |
| HealthCache.DeriveStatus | tools/friday-launcher/healthsvc.go:261-292 | Healthy exactly when running and ready; failed exactly when errored or completed with the restarts used up; pending exactly before the process is spawned. |
| HealthCache.Cache.Update | tools/friday-launcher/healthsvc.go:175-226 | Services, readiness and ticks after an update; an absent snapshot changes nothing. |
| HealthCache.Cache.SetReady | tools/friday-launcher/healthsvc.go:139-161 | Services, readiness and ticks after a verdict: only a flip restarts the clock and notifies. |
| HealthCache.Cache.NotifySubscribers | tools/friday-launcher/healthsvc.go:412-424 | One non-blocking send per registered channel. |
| HealthCache.Cache.Subscribe | tools/friday-launcher/healthsvc.go:385-394 | Registers a new channel unless 100 are registered. |
| HealthCache.Cache.Unsubscribe | tools/friday-launcher/healthsvc.go:399-406 | Idempotent: the channel is closed only by the call that removes it. |
| HealthCache.UpdateMeaning | tools/friday-launcher/healthsvc.go:181-221 | With distinct process names each process has its expected record afterwards (old one while the status stands, otherwise a new one from now) and no other service is touched. |
| HealthCache.UpdateRecords | tools/friday-launcher/healthsvc.go:175-226 | With distinct process names the record of each process is healthy exactly when it runs and has a good verdict (none counts as bad), failed when it ended with the restarts used up, pending before it is spawned, starting otherwise; its time is the old one exactly when a record with that status was there. |
| HealthCache.RowsStay | tools/friday-launcher/healthsvc.go:194-221 | Known services keep their places; new ones come behind them. |
| HealthCache.SeededIsObserved | tools/friday-launcher/healthsvc.go:183-196 | The first observation is the update of an empty cache. |
| HealthCache.QuietUpdate | tools/friday-launcher/healthsvc.go:181-225 | No notification means that no service changed, for any snapshot. |
| HealthCache.NotifiesExactly | tools/friday-launcher/healthsvc.go:181-225 | With distinct names a notification goes out exactly when the services changed. |
| HealthCache.VerdictTouchesOne | tools/friday-launcher/healthsvc.go:139-158 | A verdict touches at most the record of its own service, and there only the time, exactly when a verdict was there and it flips. |
| HealthStream.StepKeeps | tools/friday-launcher/healthsvc.go:139-226 | Every step of every writer, notifier and consumer keeps the invariant. |
| HealthStream.NoLostWakeup | tools/friday-launcher/healthsvc.go:385-424 | In every interleaving: a registered client that lacks the current services has a buffered tick, is about to take a snapshot, or some writer still owes a notification; never more than one tick per channel or 100 subscribers; no registered channel is closed. |
| HealthStream.QuietMeansCurrent | tools/friday-launcher/healthsvc.go:491-567 | When nothing is under way every client has the current services. |
| HealthStream.ClientCatchesUp | tools/friday-launcher/healthsvc.go:532-567 | Once no writer owes a notification a client's own next steps bring it up to date. |
| HealthStream.NotifyReachesAll | tools/friday-launcher/healthsvc.go:412-424 | A notification leaves exactly one tick in every registered channel and sends to no closed one. |
| HealthStream.ConnectedSees | tools/friday-launcher/healthsvc.go:385-394 | A client on a fresh channel with a place free is registered, and its first snapshot is current. |
| HealthStream.PollReachesClient | tools/friday-launcher/healthsvc.go:175-226 | A poll reaches every client: after its notification the client gets records that say what the processes amount to. |
| HealthStream.VerdictReachesClient | tools/friday-launcher/healthsvc.go:139-161 | A verdict reaches every client with the next poll: a running process is healthy there exactly when the verdict is good. |
| ConfigHash.HashIsExact | apps/atlasd/routes/mcp-tool-cache.ts:72-86 | Two configurations have the same hash text exactly when they are equal up to key order and `undefined` members. |
| ConfigHash.HashSeesAll | apps/atlasd/routes/mcp-tool-cache.ts:72-86 | The hash text is equal exactly for configurations that are equal as JSON sees them: objects by their defined members, lists by their items, otherwise the same value. |
| ConfigHash.PrintFree | apps/atlasd/routes/mcp-tool-cache.ts:78-85 | JSON text followed by a delimiter can be read in one way only. |
| ConfigHash.OrderAndUndefinedDoNotCount | apps/atlasd/routes/mcp-tool-cache.ts:73-77 | Key order and `undefined` members do not change the hash. |
| PrewarmCache.RunKeeps | apps/atlasd/routes/mcp-tool-cache.ts:198-237 | In every interleaving of prewarms, tools requests, ends of background and foreground probes, invalidations, lookups and time: each slot belongs to a running probe of its server and hash; each entry comes from a probe that found those tools; a running background probe without a slot was superseded by a later prewarm for another configuration. |
| PrewarmCache.JoinedProbeFits | apps/atlasd/routes/mcp-tool-cache.ts:115-126 | A joined prewarm is a running probe of the same server and an equal configuration. |
| PrewarmCache.NoProbeNoSlot | apps/atlasd/routes/mcp-tool-cache.ts:227-232 | No slot is left once no probe runs. |
| PrewarmCache.SupersededLeavesSlot | apps/atlasd/routes/mcp-tool-cache.ts:227-232 | A superseded probe never evicts its successor's slot. |
| PrewarmCache.OwnerClearsSlot | apps/atlasd/routes/mcp-tool-cache.ts:227-232 | A probe that still holds its slot clears exactly that one, however it ends. |
| PrewarmCache.HitIsFound | apps/atlasd/routes/mcp-tool-cache.ts:89-101 | A hit gives tools that a probe found for that server and an equal configuration, no older than the time to live. |
| PrewarmCache.HitsAfterProbe | apps/atlasd/routes/mcp-tool-cache.ts:89-109 | After a probe that found tools a lookup hits exactly for an equal configuration and while the entry is young. |
| PrewarmCache.LookupDrops | apps/atlasd/routes/mcp-tool-cache.ts:89-101 | A lookup drops the entry of the server exactly when it is for an equal configuration and too old. |
| PrewarmCache.InvalidationHolds | apps/atlasd/routes/mcp-tool-cache.ts:111-113 | After an invalidation the server stays out of the cache, until somebody starts a new probe of it, exactly when no probe of the server is running, neither in the background nor for a waiting caller. |
| PrewarmCache.ProbeBringsBack | apps/atlasd/routes/mcp-tool-cache.ts:217-232 | A background probe that was running brings its server back when it ends with tools. |
| PrewarmCache.ForegroundBringsBack | apps/atlasd/routes/mcp-registry.ts:1085-1088 | So does a probe that a tools request awaits: it stores its tools when it ends, whatever was invalidated meanwhile. |
| PrewarmCache.InvalidatedTooEarly | apps/atlasd/routes/mcp-registry.ts:1008-1016 | Runs in which it fails, from the start: a background probe, or a foreground one, is under way, the server is invalidated, the probe ends, and a lookup hits. |
| PrewarmCache.EqualProbeJoined | apps/atlasd/routes/mcp-tool-cache.ts:204-216 | While an equal background probe runs, a prewarm starts another exactly when the slot is gone or serves another configuration and no young equal entry is cached; then the running probe was superseded, and one that was not is joined. |
| PrewarmCache.RequestProbes | apps/atlasd/routes/mcp-registry.ts:1044-1086 | A request for tools begins a probe exactly when no young equal entry is cached and the slot does not serve the configuration. |
| PrewarmCache.SameProbeTwice | apps/atlasd/routes/mcp-tool-cache.ts:204-216 | One kind of failing run: the slot serves another configuration, so prewarms alternating between two run the first one twice. |
| PrewarmCache.SameProbeAfterFailure | apps/atlasd/routes/mcp-tool-cache.ts:204-232 | The other kind: the successor has already ended and the slot is gone. |
| PrewarmCache.FoundToolsStayVisible | apps/atlasd/routes/mcp-tool-cache.ts:204-220 | Tools that a probe found, in the background or in the foreground, stay visible for the time to live, whatever is asked for under the same configuration, unless the server is invalidated or asked for under another one, exactly when no other running probe of the server is for another configuration. |
| PrewarmCache.SupersededEndsLast | apps/atlasd/routes/mcp-tool-cache.ts:204-220 | A run in which they do not: a superseded background probe ends last and throws out the entry of its successor. |
| PrewarmCache.ForegroundEndsLast | apps/atlasd/routes/mcp-registry.ts:1085-1088 | Another one: a foreground probe for another configuration began before the prewarm and ends last. |
| PrewarmCache.ToolCache.GetCachedTools | apps/atlasd/routes/mcp-tool-cache.ts:89-101 | Hit, miss, and eviction of an expired entry. |
| PrewarmCache.ToolCache.PrewarmTools | apps/atlasd/routes/mcp-tool-cache.ts:198-237 | Join, answer from the cache, or start a probe and take the slot. |
| PrewarmCache.ToolCache.EndProbe | apps/atlasd/routes/mcp-tool-cache.ts:217-232 | Tools stored under the probe's own hash; own slot cleared. |
| LogTail.Tail | apps/atlasd/routes/logs.ts:107-189 | For any file, offset, limit, chunk size and read lengths: the entries are the first `limit` matches of the text read; with reads of at least one byte, of the whole suffix, and `truncated` exactly when the limit is filled by a line that ends in a newline with text behind it; not truncated means all matches. |
| LogTail.TakeLines | apps/atlasd/routes/logs.ts:154-170 | The inner loop stops at the limit and not before. |
| LogTail.MatchExactly | apps/atlasd/routes/logs.ts:154-162 | A line contributes an entry exactly when its text without white space at the ends is not empty, parses to it, and the level in lower case is asked for. |
| LogTail.LevelsFilter | apps/atlasd/routes/logs.ts:162 | Fewer levels give the entries of those levels in the same order. |
| LogTail.TakeChunk | apps/atlasd/routes/logs.ts:147-171 | One chunk: complete lines matched, last piece kept, `truncated` exactly when lines, a remainder or bytes are left. |
| LogTail.TakeRemainder | apps/atlasd/routes/logs.ts:173-180 | A last line without a newline counts. |
| LogTail.StopHere | apps/atlasd/routes/logs.ts:164-170 | At the limit the lines taken so far already give the first matches of the whole suffix. |
| LogTail.ReadOn | apps/atlasd/routes/logs.ts:147-151 | Keeping the last piece across chunks gives the lines of the whole text. |
| Lines.SplitContinued | apps/atlasd/routes/logs.ts:147-151 | Splitting a longer text keeps all but the last line. |
| UploadSteps.StepKeeps | apps/atlasd/routes/chunked-upload.ts:218-311 | Every request, assembly turn and clean-up keeps the session invariant and moves the status forward only. |
| UploadSteps.RunKeeps | apps/atlasd/routes/chunked-upload.ts:273-311 | Over every run assembly starts at most once, and only when every chunk is there. |
| UploadSteps.RunFollows | apps/atlasd/routes/chunked-upload.ts:243-263 | Between any two points of a run an accepted chunk stays what it was, and a finished status stays. |
| UploadSteps.CompletedMeans | apps/atlasd/routes/chunked-upload.ts:345-409 | Completed: every index received, content handed over is the chunks in order, its length is the declared one. |
| UploadSteps.EndsExactly | apps/atlasd/routes/chunked-upload.ts:366-409 | Completed exactly when all chunks are read, the length is the declared one and the store accepts; otherwise failed with an error. |
| UploadSteps.CompletesExactly | apps/atlasd/routes/chunked-upload.ts:282-311 | Assembly starts exactly when the session is uploading and no chunk is missing; the refusals otherwise. |
| UploadSteps.ConcatPieces | apps/atlasd/routes/chunked-upload.ts:193-199 | A file cut at the chunk size is the concatenation of its pieces. |
| UploadSteps.Reassembled | apps/atlasd/routes/chunked-upload.ts:345-409 | Pieces sent in any order, with repeats, refusals and failed writes in between: what reaches the artifact store is the file. |
| UploadSteps.CompletesWithTheFile | apps/atlasd/routes/chunked-upload.ts:273-409 | Once every piece is there, completing, reading and an accepting store end in `completed` with the file. |
| UploadRuns.UploadArrives | apps/atlasd/routes/chunked-upload.ts:218-409 | A file whose pieces are all sent arrives: in any order, with repeats, refusals and failed writes besides, the session then has all chunks, and completing it ends in `completed` with the file. |
| UploadRuns.PiecesArrive | apps/atlasd/routes/chunked-upload.ts:218-409 | In particular its pieces under their own lengths, in any order. |
| UploadRuns.TotalChunksIsLeast | apps/atlasd/routes/chunked-upload.ts:193-199 | The number of chunks is the least that covers the file. |
| UploadRuns.SweptExactly | apps/atlasd/routes/chunked-upload.ts:51-60 | A session leaves the map exactly when a sweep finds it older than two hours. |
| ChunkedUpload.UploadSession.PutChunk | apps/atlasd/routes/chunked-upload.ts:218-269 | All refusals in order, the repeated chunk, the failed write, the oversized write. |
| UploadRuns.AcceptedExactly | apps/atlasd/routes/chunked-upload.ts:227-263 | A chunk is accepted exactly while uploading, for an index of the file, with a header of at most the chunk size, and either once more or with a written body of at most that size. |
| UploadRuns.ReceivedExactly | apps/atlasd/routes/chunked-upload.ts:243-263 | A chunk is received by its first acceptance and in no other way; its body is kept and no other file touched. |
| ChunkedUpload.UploadSession.CompleteUpload | apps/atlasd/routes/chunked-upload.ts:273-311 | Refused while a chunk is missing; otherwise the status moves and assembly starts. |
| ChunkedUpload.UploadSession.AssembleAndConvert | apps/atlasd/routes/chunked-upload.ts:345-420 | The loop over chunks, then length check and conversion, equals the steps without interruption. |
| ChunkedUpload.ReadAllIsRun | apps/atlasd/routes/chunked-upload.ts:360-364 | The loop is a run of the state machine. |
| ChunkedUpload.Uploads.HandlePut | apps/atlasd/routes/chunked-upload.ts:218-226 | 404 for an unknown id; otherwise only that session changes. |
| ChunkedUpload.Uploads.HandleComplete | apps/atlasd/routes/chunked-upload.ts:273-281 | The same for completing. |
| ChunkedUpload.Uploads.Init | apps/atlasd/routes/chunked-upload.ts:193-213 | A new session under its id with the number of chunks of its size. |
| ChunkedUpload.Uploads.CleanupExpired | apps/atlasd/routes/chunked-upload.ts:51-60 | Exactly the sessions older than the time to live leave the map, their files removed, the others untouched. |
| DotEnv.LoadDotEnv | tools/friday-launcher/project.go:347-375 | The loop gives one string per pair of the file, in order; nothing for a file that cannot be read. |
| DotEnv.LineMeans | tools/friday-launcher/project.go:353-374 | Exactly which pair a line defines. |
| DotEnv.PrintedSplitsBack | tools/friday-launcher/project.go:360-372 | Each string splits back at its first equals sign. |
| DotEnv.StringifyEnv | apps/atlasd/routes/config.ts:67-89 | The loop with its early continues equals the written text. |
| DotEnv.WrittenForm | apps/atlasd/routes/config.ts:67-89 | Which values are written plain, in single quotes, and in double quotes. |
| DotEnv.ReadWrittenValue | tools/friday-launcher/project.go:395-404 | What the launcher makes of a value the daemon wrote. |
| DotEnv.LoadStringify | apps/atlasd/routes/config.ts:67-89 | For all accepted variables the launcher loads the same keys in order, values escaped only when they hold a single quote. |
| DotEnv.RoundTrip | apps/atlasd/routes/config.ts:67-89 | The round trip holds exactly when no value has a single quote together with a backslash or a double quote. |
| DotEnv.TangledValueIsChanged | apps/atlasd/routes/config.ts:85-86 | A concrete value that does not come back. |
| CertEnv.PresentKeys | tools/friday-launcher/cert_env.go:80-90 | The scan finds exactly the keys that lines define. |
| CertEnv.KeysOnAreLoaded | tools/friday-launcher/cert_env.go:80-90 | Apart from a blank key, those are exactly the keys the launcher loads. |
| CertEnv.EnsureCertEnvFile | tools/friday-launcher/cert_env.go:70-128 | Count, whether the file is written, and the new text; an unreadable file counts as empty. |
| CertEnv.OldTextIsPrefix | tools/friday-launcher/cert_env.go:104-115 | The old text stays at the front. |
| CertEnv.CommentIsLine | tools/friday-launcher/cert_env.go:104-115 | Keys added to a file that holds something come under the comment, on a line of its own. |
| CertEnv.OldPairsStay | tools/friday-launcher/cert_env.go:70-128 | Every pair loaded before is loaded again in its place, for any values. |
| CertEnv.LoadEnsured | tools/friday-launcher/cert_env.go:92-115 | The file loads as the old pairs and then the missing ones, exactly when their values are plain (one line, no trailing carriage return, no surrounding quotes). |
| CertEnv.EnsureTwice | tools/friday-launcher/cert_env.go:92-103 | A second call changes nothing, also when values are not plain. |
| CertEnv.LauncherEnsures | tools/friday-launcher/cert_env.go:41-128 | All of these for the launcher's own seven keys and comment. |
| UrlSchemes.StartsWithLoopbackHost | tools/friday-launcher/cert_env.go:268-288 | The scan accepts exactly `[::1]…`, and `localhost` or `127.0.0.1` alone or followed by a slash or colon. |
| UrlSchemes.SwapURLScheme | tools/friday-launcher/cert_env.go:231-246 | Only a loopback URL with the other scheme changes; `changed` exactly then. |
| UrlSchemes.MigrateStaleURLSchemes | tools/friday-launcher/cert_env.go:170-213 | New text and number of changed lines; written only when some line changed. |
| UrlSchemes.MigratedLines | tools/friday-launcher/cert_env.go:185-213 | The lines afterwards are the old lines, each rewritten; none added or lost. |
| UrlSchemes.MigrateTwice | tools/friday-launcher/cert_env.go:185-213 | Idempotent for a fixed TLS state. |
| UrlSchemes.OnlyListedLoopbackChanges | tools/friday-launcher/cert_env.go:185-213 | The file loads with the same keys in the same order; only values of the four listed keys may differ, by their scheme, and only when the loopback scan accepts them (for their hosts see `ExternalUrls.ExternalStays`). |
| UrlSchemes.MigratedLoads | tools/friday-launcher/cert_env.go:185-213 | Exactly what the file loads as, line by line: which pairs change and to what. |
| UrlSchemes.MissedExactly | tools/friday-launcher/cert_env.go:231-246 | After the swap the loaded value is a loopback URL with the wrong scheme exactly for two kinds of raw values: such a URL in quotes, and a bare name followed by carriage returns. |
| UrlSchemes.LoadedSwap | tools/friday-launcher/cert_env.go:231-246 | The loaded value is swapped exactly unless the raw value is one of the two missed kinds. |
| UrlSchemes.MigratedInLine | tools/friday-launcher/cert_env.go:185-213 | Every listed key of the file loads in line after the migration exactly when no line holds a missed value. |
| UrlSchemes.QuotedIsMissed | tools/friday-launcher/cert_env.go:202-209 | Missed: any loopback URL in quotes. |
| UrlSchemes.OnThenOff | tools/friday-launcher/cert_env.go:231-246 | TLS on and then off loads like TLS off alone. |
| UrlSchemes.OnThenOffRestores | tools/friday-launcher/cert_env.go:231-246 | On and off again gives back every loaded pair exactly when no listed key held an `https` loopback URL at first. |
| UrlSchemes.BareHostWithCR | tools/friday-launcher/cert_env.go:229-246 | Missed: a bare loopback name and any number of carriage returns. |
| UrlHosts.ScanAgreesExactly | tools/friday-launcher/cert_env.go:248-288 | Where the scan agrees with the host of section 3.2.2 of RFC 3986, case not counting: without user information, unless a query or fragment follows a bare name or the name has an upper-case letter; with it, when the user information looks like a loopback host and port exactly if the text behind it begins with a loopback host. |
| UrlHosts.ScanWithoutUser | tools/friday-launcher/cert_env.go:276-287 | Without user information the scan misses exactly the bare names that a query or fragment follows and the name with an upper-case letter, and accepts nothing else. |
| UrlHosts.ScanWithUser | tools/friday-launcher/cert_env.go:268-287 | With user information the scan accepts the URL exactly when that information looks like a loopback host and port, whatever the host is. |
| UrlHosts.QueryIsMissed | tools/friday-launcher/cert_env.go:276-287 | Missed: a bare name with any query or fragment behind it. |
| UrlHosts.UpperCaseIsMissed | tools/friday-launcher/cert_env.go:287 | Missed: the name in any other case, with a port or path behind it or not. |
| UrlHosts.UserIsTaken | tools/friday-launcher/cert_env.go:276-287 | Taken for loopback: the user `localhost`, with any password, of any host that is not loopback. |
| ExternalUrls.ExternalStays | tools/friday-launcher/cert_env.go:161-164 | Every URL of the file whose host is not loopback loads as before exactly when no listed line holds, outside quotes and with the scheme to be swapped, a URL with user information that looks like a loopback host in front of a host that is not. |
| ExternalUrls.ExternalLineChanges | tools/friday-launcher/cert_env.go:185-213 | The same for a single line: the pair of an external URL changes exactly then. |
| ExternalUrls.DisguisedIsDowngraded | tools/friday-launcher/cert_env.go:161-164 | A family of failing lines: a listed `https` URL with the user `localhost` of an external host is downgraded when TLS is off. |
| Lines.SplitJoin | tools/friday-launcher/cert_env.go:185-213 | Joining lines and splitting again gives the lines back. |
| Lines.JoinSplit | tools/friday-launcher/cert_env.go:185-213 | And the other way round. |
| Readiness.CounterIsStreak | tools/friday-launcher/readiness.go:189-241 | The failure counter is the number of failures since the last success or restart. |
| Readiness.RestartsAreCapped | tools/friday-launcher/readiness.go:212-225 | Never more than `restartMax` restarts over any probe sequence. |
| Readiness.RestartsArePaidFor | tools/friday-launcher/readiness.go:197-241 | Total failures are at least restarts times `failureMax`. |
| Readiness.RestartExactlyAfterStreak | tools/friday-launcher/readiness.go:197-241 | A restart is issued exactly when the cap is not reached and `failureMax` failures came with no success or restart among them. |
| Readiness.FreshRunRestarts | tools/friday-launcher/readiness.go:197-241 | A run of k failures from a fresh counter issues exactly min(remaining cap, k div `failureMax`) restarts. |
| Readiness.NewRunnerRestarts | tools/friday-launcher/readiness.go:197-241 | In plain numbers: a new runner restarts after every `failureMax` failures until the cap is reached. |
| Readiness.ReadinessRunner.OnSuccess | tools/friday-launcher/readiness.go:189-195 | The counter is reset, nothing else. |
| Readiness.ReadinessRunner.OnFailure | tools/friday-launcher/readiness.go:197-241 | Both counters and whether a restart is requested. |
| CrashGuard.WindowIsSuffix | scripts/dev-watcher.ts:233-239 | With a clock that does not go back the list is the sorted suffix of the spawn history inside the window. |
| CrashGuard.SpawnsAreSpread | scripts/dev-watcher.ts:232-249 | Over every sequence of spawn times any six consecutive spawns are spread over more than the window. |
| CrashGuard.SixthIsFar | scripts/dev-watcher.ts:240-249 | Any six consecutive spawns span more than 60 000 ms. |
| CrashGuard.WindowHoldsFive | scripts/dev-watcher.ts:240-249 | No closed window of that length holds more than five spawns. |
| CrashGuard.RefusedOnlyWhenFull | scripts/dev-watcher.ts:240-248 | A spawn is refused exactly when the fifth one back still lies in the window. |
| CrashGuard.DevWatcher.SpawnDaemon | scripts/dev-watcher.ts:232-249 | The pruning loop on the list equals the window. |

## Left out

- Documents are values: in the source seed documents enter the map by reference, so a later update in place can reach
  the definition object; that aliasing is not modelled.
- `inputFrom`, prompt building, tool calls and artifact lifting: part of the arbitrary foreign actions, so the input
  recorded for an action is the shared one, before `inputFrom` is merged in.
- `reset()` and its missing state save; the engine runs modelled are signals, seeded results and restarts.
- The recursion-depth counter of `executeActions`: action lists do not nest, so it never passes one.
- FsmEngine.FSMEngine.Initialize: a start is taken as undisturbed. A signal sent meanwhile would begin a drain of its
  own between the steps of the start; that interleaving is not modelled, nor is a signal that arrives while an `emit`
  is awaited.
- FsmRuns.RunConserves: a restart begins a new record, because the queue lives in memory only.
- A store failure in the middle of a commit leaves an arbitrary store; agreement is claimed only when store calls
  succeed.
- Schema compilation and validation of documents: an arbitrary predicate. Telemetry, timestamps and event payloads; of
  skip events the ordered state ids are kept.
- Definition fields that are objects of JavaScript with inherited keys (a state named `constructor`): maps here have
  exactly their own keys.
- HealthStream.NoLostWakeup: the `all_healthy` flag of a payload is not claimed to fit its services, because the
  source reads them under separate locks; shutdown and uptime fields are left out.
- PrewarmCache.HitIsFound: `now` is a clock that does not go back; what a caller is told who waits for a joined probe,
  probe internals and error classification are left out.
- UrlHosts.ScanAgreesExactly: percent-encoded characters in a host name are not decoded.
- ConfigHash.HashIsExact: numbers are taken as the text JSON gives them, a `__proto__` key and the rule that
  integer-like keys come first are left out (any fixed key order gives the same result).
- LogTail.Tail: one byte per character, so a multi-byte character cut by a chunk is not modelled; no claim that
  reading on from `next_offset` misses nothing. `parseLogLine` and lower-casing are arbitrary functions.
- UploadSteps.StepKeeps: a PUT is one step; two PUTs for the same chunk at the same time, the limit on concurrent
  sessions, file-type checks, orphaned directories and the safety-net handler after assembly are left out.
- DotEnv.RoundTrip: characters stand for runes; encodings are left out. The daemon's own reader is a library.
- CertEnv.EnsureCertEnvFile: directory creation and the atomic write are taken to succeed; paths are parameters.
- UrlSchemes.MigrateStaleURLSchemes: whether certificates are valid is a parameter; an unreadable file writes nothing.
- Readiness.ReadinessRunner.OnFailure: whether the requested restart works is not modelled, the source ignores it too.
- CrashGuard.DevWatcher.SpawnDaemon: starting and killing the child process is left out.
- HTTP routing, authorization, YAML, certificates, process supervision, tray, tunnel and installer code.

