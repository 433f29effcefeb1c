# Firn: consent, window handoff, conflict parsing and stores

A Dafny model of the parts of Firn whose promises span many functions, with proofs that the promises hold.
`dafny verify dfyconfig.toml` checks everything.

**Run lifecycle** (`Service*.dfy`). The AI service admits turns into conversations, asks for consent before anything
leaves for a remote destination, and shuts down quiet. It is a transition system with one step per critical section:
the binding gate's read side with the conversation mutex makes admission a few steps, between which cancellation, a
finishing turn, a closing mark and other conversations interleave. `ServiceState` is the shared state, `ServiceSteps` the steps,
`ServiceInvariant` what every reachable state satisfies, `ServiceSafety` and `ServiceConsent` the whole-run inductions,
`ServiceTheorems`, `ServiceEpochs`, `ServiceProgress` and `ServiceDrain` the promises: what never happens, what can go through,
and that nothing is stuck. `ServiceRuntime` is the service as an object updated in place: each method is the step, keeps the
invariants, and answers as `ServiceOutcomes` says. `ConsentDurability` joins the service to its consent store across crashes.

**Window handoff** (`Golem*.dfy`). The Golem panel moves between the main window and a satellite without losing drafts.
The envelope check and the accept of a message are separate steps, native reads and timers happen at any time, and
captured saves are written in any order. `GolemTheorems`, `GolemPersistence` and `GolemProgress` hold the promises,
`GolemRuntime` is the window runtime as an object, and `Placement` is where the satellite goes.

**Conflict markers** (`Conflict*.dfy`). The line machine against an independent grammar of documents, the choice among
candidate widths, and the round trip of rendered conflicts.

**Path rules and directory reading** (`PathPatterns`, `PatternMatcher`, `PolicyRules`, `ScopePolicies`, `GitignoreMatcher`,
`DirectoryReader`, `ReaderAgreement`). Both memoised matchers against one declarative relation, rule compilation and manifest loading,
the guard's answer, and the lazy directory reader against the recursive one.

**Stores** (`SessionStore`, `SessionHistory`, `ConsentFile`, `ConsentCrash`, `ConsentStores`). Compare-and-swap over deletion and
recreation, and grants through crashes between any two effects on the file system.

**Settings and text** (`ReachableSet`, `RoleUsage`, `Unicode`, `TextFiles`, `TextRoundTrip`). The destinations a consent decision is
asked about, which use cases reach a role, and text files through encodings and line endings.

Parameters stand for what the program cannot decide: `path.Match` on one segment, endpoint normalisation, sorting, JSON, the
host's answers to each effect. The model follows the code, also where a comment or a natural expectation says otherwise. Where
that matters, a lemma gives the condition or an input:

- The two directory readers are documented to build the same level. The recursive one marks a directory unreadable
  when its own listing fails, the lazy one does not; `ShallowAgrees` gives the exact condition and `LevelsCanDiffer` a tree.
- A placed frame placed again is unchanged exactly when it has the minimum sizes of the first area that contains it
  (`PlacingAgain`). The program's own calls always meet that (`OwnCallsSettle`); `NestedAreasCanGrow` is a fallback it never passes.
- Text that starts with U+FEFF does not survive plain UTF-8: it reads back as `utf-8-bom` without its first character.
- A consent file over 256 KiB can be written and then never read again; the store fails closed (`OversizedSetIsRefused`).
- A draft map can be accepted under another handoff than it names, exactly when a re-dock request found the satellite ready between
  its check and its accept (`SplitAcceptNamesHandoff`); the first closing is enough (`ReadyDraftsGoStale`).

## Model

| member | source | states |
|---|---|---|
| ServiceTheorems.LaunchIsConsented | internal/ai/service.go:888-1112 | In every run, the step that launches a turn does so on a live runner whose target is the admitted target, selected by the current config epoch for the current repository epoch, and that destination is local or granted at that moment. |
| ServiceTheorems.EgressWasConsented | internal/ai/service.go:1056-1112 | Ever after, a launched turn's runner still targets exactly the admitted destination and belongs to its conversation; a remote one was granted at launch. |
| ServiceTheorems.CachedRunnerFits | internal/ai/service.go:1028-1042 | When an admission reaches the reuse check, a cached runner fails it only because the directory changed: reuse across repository or config epochs cannot happen, so the logged invariant violation is unreachable. |
| ServiceTheorems.OneLiveRunner | internal/ai/service.go:101-119 | In every reachable state two live runners of one conversation are the same runner, across stale-marking, rebind, reload, failed admission and rollback. |
| ServiceTheorems.ShutdownIsQuiescent | internal/ai/service.go:1976-2014 | Once shutdown signals done no admission, settings write, index entry, active run or live runner is left, and every run ever registered has finished. |
| ServiceTheorems.FreeRecord | internal/ai/service.go:900-990 | While its mutex is free a conversation is never starting, is pending exactly when a challenge of the current binding is stored, and is running or canceling exactly when exactly one index entry points back at it. |
| ServiceTheorems.TerminalAfterRelease | internal/ai/service.go:1263-1304 | A terminal event goes out only after the index and the conversation have let go of the run. |
| ServiceTheorems.LaunchedOnce | internal/ai/service.go:1117-1177 | Over the whole process no run ID is launched twice, through grant failures, retries, declines, expiry and rollbacks. |
| ServiceTheorems.NoSaveAfterReset | internal/ai/service.go:1376-1398 | A run launched before a New chat of its conversation saves nothing after it. |
| ServiceTheorems.SavesMatchLaunch | internal/ai/service.go:1376-1398 | Every session save ever made was made under the reset count its run was launched with. |
| ServiceTheorems.GrantsComeFromChallenges | internal/ai/service.go:1582-1722 | The grant set is what the store opened with plus recorded commits, each of exactly the destinations of an issued challenge that had not expired when it was checked. |
| ServiceTheorems.TokensAreSingleUse | internal/ai/service.go:1582-1600 | Each settings token is consumed at most once and authorises at most one commit, and a grant-only token only in the grant-only flow, a write token only in the write flow. |
| ServiceTheorems.PublicationsAreConsented | internal/ai/service.go:1627-1770 | Every published write leaves each remote destination of the new document either reachable by the document it replaced or granted. |
| ServiceEpochs.StaleStaysStale | internal/ai/identity.go:64-160 | Once a repository incarnation is not current, no later run makes its epoch current again, so its identities never resolve again. |
| ServiceProgress.AllowedTurnLaunches | internal/ai/service.go:797-1112 | From every state of every run, an allowed first turn on a free conversation of an open service is launched by four sections (enter, admit, build, register) on a live runner for the selected destination, and grants nothing. |
| ServiceProgress.ConsentedTurnLaunches | internal/ai/service.go:797-1112 | From every state of every run, an unconsented remote turn is asked about, and the retry that answers is granted and launched: seven sections, after which the grant set has exactly that destination more. |
| ServiceProgress.FailedGrantRetries | internal/ai/service.go:945-967 | In every run, a retry whose grant could not be persisted leaves the whole state as it was, and the same retry sent again is granted and launched. |
| ServiceProgress.GrantFails | internal/ai/service.go:950-963 | A failed grant leaves every part of the state as it was before the retry. |
| ServiceDrain.NoConversationIsWedged | internal/ai/service.go:992-1027 | From every state of every run at most two sections bring any conversation to idle and free: the end of the admission that holds it, then its decline or the cleanup of its turn. |
| ServiceDrain.ShutdownCanEnd | internal/ai/service.go:1976-2014 | From every state a run can be in once closing, some sections end the shutdown: admissions, a settings write and turns all drain, and the final retirement and sweep follow. |
| ServiceDrain.CleanupFrees | internal/ai/service.go:1264-1283 | A turn whose Run has returned leaves its conversation idle and free. |
| ServiceOutcomes.AdmitMeans | internal/ai/service.go:888-990 | An admission is blocked with nothing changed, refused with nothing claimed, asked or granted, turned into exactly one question for its own identity and an ungranted remote destination, or goes on holding its conversation. |
| ServiceOutcomes.RegisterMeans | internal/ai/service.go:992-1112 | In every state of the invariant a built admission of an open service launches its request on its target, and once closing ends with its conversation idle and nothing launched. |
| ServiceConsent.TakeOk | internal/ai/service.go:1582-1600 | Whatever token is presented, taking it grants nothing and keeps the store's invariant, and a record it returns was issued under that token, has not expired, is spent from now on and has authorised nothing. |
| ServiceSafety.LifecycleHolds | internal/ai/service.go:101-119 | The lifecycle invariant (records, admissions, index, runs, runners, tombstones, shutdown stage) holds after every interleaving of the critical sections. |
| ServiceConsent.ConsentHolds | internal/ai/service.go:1582-1944 | The consent invariant (challenges, tokens, grants, pending and published writes) holds after every run. |
| ServiceInvariant.Combine | internal/ai/service.go:101-119 | A step that touches one conversation keeps the whole invariant when it keeps that conversation's part and leaves the others' alone. |
| ServiceConsent.NewRemoteCovers | internal/ai/settings_apply.go:2189-2203 | The new remote destinations with the prior ones and the granted ones cover every remote destination of the new document. |
| ServiceRuntime.Service.constructor | internal/ai/service.go:202-232 | A new service is an initial state of the transition system and satisfies both whole-run invariants, which every method below keeps. |
| ServiceRuntime.Service.CloseRunners | internal/ai/service.go:81-88 | Closes exactly the named runners. |
| ServiceRuntime.Service.RetireBinding | internal/ai/service.go:614-637 | Drops the incarnation's challenges, takes exactly its idle runners, and stale-marks its busy ones, record by record in any order. |
| ServiceRuntime.Service.Retarget | internal/ai/service.go:534-577 | Retirement of the previous incarnation, then the new binding, then the close of what retirement returned. |
| ServiceRuntime.Service.BindRepository | internal/ai/service.go:534-577 | The bind step: a same-root refresh changes nothing, any other allocates the next epoch and retires the previous binding. |
| ServiceRuntime.Service.UnbindRepository | internal/ai/service.go:582-605 | The unbind step. |
| ServiceRuntime.Service.ConversationsBusy | internal/ai/service.go:1474-1485 | The idle barrier: expires challenges record by record, stops at the first record not idle, and answers as the step says for the records it reached. |
| ServiceRuntime.Service.RetireCachedRunners | internal/ai/service.go:1494-1507 | Every cached runner is dropped from its record and closed. |
| ServiceRuntime.Service.ReloadSettingsNow | internal/ai/service.go:1436-1467 | The reload step: busy changes no epoch, otherwise a new snapshot and no cached runner. |
| ServiceRuntime.Service.InstallSettingsChallenge | internal/ai/service.go:1605-1617 | Expired records are pruned and the new one published under its token. |
| ServiceRuntime.Service.NewRemoteDestinations | internal/ai/settings_apply.go:2189-2203 | The loop keeps, in order, exactly the destinations that are remote, not in the prior document and not granted. |
| ServiceRuntime.Service.StartTurn | internal/ai/service.go:797-1112 | A whole call that found its locks free. Accepted: a live runner executes exactly this request on the allowed destination the snapshot selects. Needs consent: exactly the returned challenge is stored, and nothing granted or launched. Rejected before its commit: no claim, question, grant or run. Rejected after it: nothing runs, the conversation is free or still asks, and only the run ID stays used. The only grant it can make is of the destination its request was asked about. |
| ServiceRuntime.Service.AdmitTurn | internal/ai/service.go:888-990 | The admission section is the step, keeps the invariants, and its answer says what was done: nothing, a refusal without a claim, the one question now stored, or a held conversation under a fresh claim or an answered question. |
| ServiceRuntime.Service.GrantConsented | internal/ai/service.go:945-967 | Success: the answered destination is granted and the question consumed. Failure: grants and claims are as before, the question is still stored, and the admission is over. |
| ServiceRuntime.Service.BuildRunner | internal/ai/service.go:1028-1076 | Success: the admission has a live runner of its conversation for the selected target, which is allowed, under the current epochs. Failure: its conversation is idle, with claims, grants and runs as before. |
| ServiceRuntime.Service.RegisterTurn | internal/ai/service.go:1077-1112 | Open: the request runs on its target under its index entry. Closing: nothing launched and the conversation idle. |
| ServiceRuntime.Service.TerminalCleanup | internal/ai/service.go:1264-1283 | Whenever a run has returned: its conversation is free, its run ID out of the index, its runner closed if it was retired meanwhile, and only then may it emit. |
| ServiceRuntime.Service.Cancel | internal/ai/service.go:1314-1353 | Found: exactly the run indexed under this identity is marked and still executing, or exactly the question asked under it is withdrawn and its conversation free. Not found: neither existed and nothing changed. |
| ServiceRuntime.Service.DeclineConsent | internal/ai/service.go:1337-1353 | True exactly when the conversation's stored question was asked under this identity; it is then free and every other conversation as it was. |
| ServiceRuntime.Service.ResetConversation | internal/ai/service.go:1376-1398 | Accepted only with the conversation idle and free; its reset count moves on by one and no run is touched. A refusal counts nothing. |
| ServiceRuntime.Service.WriteSettingsNow | internal/ai/service.go:1627-1722 | The write step, on whichever records the scan reached. A write to save is the one asked for and reaches no remote destination that its predecessor did not reach or the user granted; without a write to save nothing is granted. |
| ServiceRuntime.Service.PublishSettingsWrite | internal/ai/service.go:1745-1770 | Published: the file is the prepared document and no conversation keeps a runner of the one before. Refused: only the pending write is gone. |
| ServiceRuntime.Service.CancelSettingsApply | internal/ai/service.go:1572-1600 | Whatever the token was for, nothing can be authorised by it any more, and nothing was granted. |
| ServiceRuntime.Service.PrepareDestinationGrants | internal/ai/service.go:1830-1876 | The grant-only question about every ungranted reachable remote destination, bound to the file and its revision. |
| ServiceRuntime.Service.ConfirmDestinationGrants | internal/ai/service.go:1888-1944 | The token is spent whatever follows; only a fresh file and revision commit its batch. |
| ServiceRuntime.Service.RetireFinalBinding | internal/ai/service.go:1976-1984 | The shutdown writer keeps the idle runners it retires for the last sweep. |
| ServiceRuntime.Service.FinishShutdown | internal/ai/service.go:1988-2014 | Once everything registered is done, every cached and collected runner is closed. |
| ServiceRuntime.Service.Shutdown | internal/ai/service.go:1953-2014 | Closing a service with nothing registered ends done, with every runner ever constructed closed. |
| GolemTheorems.ClosesAreAuthorized | app_golem_window.go:1046-1111 | At most one close authorization per instance; a satellite that was ever ready got it only while closing, after recording a final draft id in that closing and with the latest main ack for exactly that id saying ok. |
| GolemTheorems.DraftsComeFromReady | app_golem_window.go:1239-1266 | A satellite that never became ready never has drafts accepted. |
| GolemTheorems.OnlyRetirementLeavesClosing | app_golem_window.go:639-659 | Once authorized, no step but the retirement of that very window leaves closing. |
| GolemTheorems.RetirementHandsOverDrafts | app_golem_window.go:567-616 | An instance that ever was ready retires only after main acknowledged its final drafts. |
| GolemTheorems.OneObserver | app_golem_window.go:970-1039 | At most one retirement observer is outstanding; `observing` holds exactly while one is, and it names the current retiring window, instance and handoff. |
| GolemTheorems.NumbersAreFresh | app_golem_window.go:1473-1476 | Instance and handoff numbers strictly increase, so none is reused, and the live ones are the latest. |
| GolemTheorems.StalledRetirementRetries | app_golem_window.go:970-1039 | A failed retirement can always be retried, and the retry never closes again. |
| GolemTheorems.SplitAcceptNamesHandoff | app_golem_window.go:1719-1763 | In every run, an accepted draft map or transfer ack names the handoff current at its accept exactly when no re-dock request found the satellite ready between its envelope check and its accept. |
| GolemTheorems.AtomicPostNamesHandoff | app_golem_window.go:1719-1763 | So in every run, with the check and the accept as one step, accepted drafts and acks name the current handoff. |
| GolemTheorems.ReadyDraftsGoStale | app_golem_window.go:1239-1266 | And from every ready state of every run, drafts checked before the re-dock are recorded in that first closing under a handoff they do not name: the accept does not re-check it. This is why the other theorems speak of draft ids. |
| GolemProgress.UndockCompletes | app_golem_window.go:1315-1393 | From every closed state of every run: open, install, bootstrap, then view, main's drafts and ready, each passing its envelope check and its accept, lead to ready under a fresh instance and handoff. |
| GolemProgress.ReDockCompletes | app_golem_window.go:970-1111 | From every ready state of every run: the re-dock, the satellite's final drafts and main's ack, each passing its envelope check and its accept, the authorized close and the window gone lead to closed with the instance retired. |
| GolemProgress.WindowCanClose | app_golem_window.go:970-1111 | From every state of every run in which the application is not quitting, whatever phase it is in and even with a stalled retirement, at most seven steps close the window. |
| GolemSafety.HandoffHolds | app_golem_window.go:87-165 | The handoff invariant holds after every interleaving of requests, timers, observers and saves. |
| GolemPersistence.LastCaptureWins | app_golem_window.go:335-365 | Once all captured saves have run, the file holds the one captured last under the window lock, in whatever order the writes came. |
| GolemPersistence.FileIsNewestWritten | app_golem_window.go:335-365 | At any time the file holds the newest capture among those written so far. |
| GolemPersistence.NoCaptureWhileUncommitted | app_golem_window.go:808-898 | No save is captured while an attempt is bootstrapping or bootstrapped. |
| GolemRuntime.GolemWindowRuntime.constructor | app_golem_window.go:371-404 | The loaded preference: docked and closed, with a restore pending if the window was saved undocked; the invariant every method below keeps holds. |
| GolemRuntime.GolemWindowRuntime.OpenReserve | app_golem_window.go:1444-1480 | Reserves a fresh instance and handoff, only when closed. |
| GolemRuntime.GolemWindowRuntime.OpenInstall | app_golem_window.go:1481-1542 | Installs the native window unless the attempt was superseded. |
| GolemRuntime.GolemWindowRuntime.AbandonOpen | app_golem_window.go:1572-1582 | True exactly for the live attempt that got no window: it ends closed and docked with its numbers used up. Otherwise nothing changes. |
| GolemRuntime.GolemWindowRuntime.BootstrapWindow | app_golem_window.go:1679-1713 | Only an attempt's first bootstrap moves on, and every call finds a live window, hands out the retained view and leaves it as it was; a repeat changes nothing. |
| GolemRuntime.GolemWindowRuntime.AcceptViewMessage | app_golem_window.go:1197-1219 | Only a newer view replaces the retained one, and it clears an older error. |
| GolemRuntime.GolemWindowRuntime.AcceptDraftsMessage | app_golem_window.go:1239-1266 | Exactly the drafts the phase and role allow are recorded, with no ack. |
| GolemRuntime.GolemWindowRuntime.AcceptAckMessage | app_golem_window.go:1270-1292 | Exactly main's ack for the recorded transfer while closing is kept, ok or not. |
| GolemRuntime.GolemWindowRuntime.AcceptReadyMessage | app_golem_window.go:1315-1393 | Commits exactly a bootstrapped attempt that has a view and names the recorded transfer. |
| GolemRuntime.GolemWindowRuntime.RequestReDock | app_golem_window.go:970-1039 | Ready becomes closing under a fresh handoff; a stalled authorized close gets one new observer. |
| GolemRuntime.GolemWindowRuntime.RestoreReady | app_golem_window.go:944-964 | Returns an unauthorized closing of this instance and handoff to ready. |
| GolemRuntime.GolemWindowRuntime.AuthorizeClose | app_golem_window.go:1046-1111 | Authorizes exactly once, under the abort or the acked-transfer rule. |
| GolemRuntime.GolemWindowRuntime.ObserverDone | app_golem_window.go:567-616 | An observer retires the window it was started for, marks the stall, or finds itself superseded. |
| GolemRuntime.GolemWindowRuntime.CaptureFrame | app_golem_window.go:869-898 | The frame is kept; a save is captured only outside the bootstrap phases. |
| Placement.PlaceGolemWindow | app_golem_window.go:414-475 | The frame is positive, inside the usable area of largest overlap (the first such, or the fallback or first area when none overlaps), at least 380x520 where that area allows, nearest to the saved position, in the saved mode; refused exactly when no area is usable. |
| Placement.ChooseArea | app_golem_window.go:437-449 | The loop over the areas finds the first of largest positive overlap, if any. |
| Placement.OverlapMeans | app_golem_window.go:479-488 | The overlap is positive exactly when frame and area share a cell, and whole when the frame is inside. |
| Placement.ClampIsNearest | app_golem_window.go:490-501 | Clamping gives the nearest position that keeps the frame inside. |
| Placement.PlacingAgain | app_golem_window.go:414-475 | Placing a placed frame again returns it unchanged exactly when it has the minimum sizes (380x520, or less where the area is smaller) of the first usable area that contains it. |
| Placement.OwnCallsSettle | app_golem_window.go:1547-1559 | With the fallback the program passes (its first display, or none), placing a placed frame again always returns it unchanged, on any displays, overlapping or nested. |
| Placement.SeparateAreasSettle | app_golem_window.go:414-475 | With any fallback, areas that are pairwise disjoint or equal settle too. |
| Placement.NestedAreasCanGrow | app_golem_window.go:437-458 | The failing side: with a small fallback nested in a screen, which the program never passes, a placed frame grows when placed again. |
| ConflictParser.MarkerRun | internal/git/conflicts.go:1133-1154 | A line is accepted exactly when it is a marker of the exact width, or an opener of at least the minimum, and its label is what follows the space. |
| ConflictParser.OpeningWidths | internal/git/conflicts.go:1224-1235 | Ascending, and exactly the widths of the opening runs of at least the marker size. |
| ConflictParser.ParseAtWidth | internal/git/conflicts.go:1241-1315 | The loop is the line machine, error for error. |
| ConflictParser.ParseConflictRegions | internal/git/conflicts.go:1170-1219 | The file parse: none without openers, too many, ambiguous, the single clean parse, or the narrowest width's error; the last branch of the source is unreachable. |
| ConflictParser.Choice | internal/git/conflicts.go:1193-1219 | What trying each width collects decides the file as the declarative specification says. |
| ConflictParser.JoinReadsBack | internal/git/conflicts.go:1176-1180 | Splitting text gives back its lines, each ended in LF or CRLF. |
| ConflictParser.TextRoundTrip | internal/git/conflicts.go:1170-1219 | The round trip below on text, with LF or CRLF chosen line by line. |
| ConflictParsing.DocumentParses | internal/git/conflicts.go:1241-1315 | Every well-formed document parses to exactly its conflicts. |
| ConflictParsing.DocumentOf | internal/git/conflicts.go:1241-1315 | Every file that parses at a width is a well-formed document. |
| ConflictParsing.ParseIffDocument | internal/git/conflicts.go:1241-1315 | Parsing at a width succeeds with given regions exactly when the lines are a well-formed document with those conflicts. |
| ConflictFile.ParseAccounts | internal/git/conflicts.go:1241-1315 | Regions are ordered and disjoint, each of their lines is a marker or content of one side exactly once, and no opener lies outside them. |
| ConflictFile.CandidateYields | internal/git/conflicts.go:1193-1204 | Every candidate width either errors or yields a region. |
| ConflictFile.FileIff | internal/git/conflicts.go:1182-1219 | A file succeeds with regions exactly when one of at most eight candidate widths parses, and succeeds empty exactly when there is no candidate. |
| ConflictFile.FileAccounts | internal/git/conflicts.go:1182-1219 | An empty success means no opening marker of at least the marker size; any other accounts for every opener of its width. |
| ConflictFile.MarkerReadsBack | internal/git/conflicts.go:1133-1154 | A rendered marker reads back as one of its width with its label. |
| ConflictFile.RenderedRegions | internal/git/conflicts.go:1241-1315 | The conflicts of a rendered document are the sides rendered, in order, base and labels included. |
| ConflictFile.RoundTrip | internal/git/conflicts.go:1170-1219 | Rendering any conflicts at a width at or above the marker size, between plain text, and parsing returns exactly those conflicts if and only if no other candidate width parses and there are at most eight. |
| PatternMatcher.MatchPattern | internal/ai/policy.go:513-540 | The memoised matcher decides the declarative relation in which "**" covers zero or more whole segments. |
| PatternMatcher.MatchFrom | internal/ai/policy.go:513-540 | Every cell of the memo that is decided is right, and stays so. |
| PathPatterns.StarsFirst | internal/ai/policy.go:513-540 | A leading "**" covers nothing, or one more name. |
| PathPatterns.StarsLast | internal/ai/policy.go:610-657 | A pattern ending in "**" matches exactly the paths with a prefix that matches the rest. |
| PathPatterns.CollapseKeeps | internal/ai/policy.go:628-643 | Collapsing adjacent "**" keeps the matched set. |
| PolicyRules.CompileRule | internal/ai/policy.go:614-657 | Accepts exactly the valid rules, and compiles them to the collapsed segments and their descendants. |
| PolicyRules.RuleDenies | internal/ai/policy.go:610-657 | A compiled rule denies exactly the paths with a prefix that the rule as written matches. |
| PolicyRules.LoadManifests | internal/ai/policy.go:550-608 | The union of the accepted rules, or deny-all past 512 rules; no warning exactly when some manifest is present and all present are clean; the 1024-pattern cap is never reached. |
| PolicyRules.AddRules | internal/ai/policy.go:578-594 | One manifest's rules, with the pattern cap proved unreachable. |
| PolicyRules.LoadDenies | internal/ai/policy.go:550-608 | A load denies everything on overflow and otherwise exactly what its accepted rules match, so never less. |
| PolicyRules.LoadedInherits | internal/ai/policy.go:610-657 | Whatever a load denies it denies for everything below. |
| ScopePolicies.CandidateSegments | internal/ai/policy.go:482-507 | The lower-case segments of a candidate, refused for size, NUL, absolute or escaping input. |
| ScopePolicies.CandidateBelow | internal/ai/policy.go:482-507 | A path below a refused one is refused, and otherwise continues its segments. |
| ScopePolicies.FloorMatches | internal/ai/policy.go:434-450 | The floor sees the path as spelled and with file-system aliases undone. |
| ScopePolicies.ScopePolicy.constructor | internal/ai/policy.go:158-175 | A new policy has published no rules, so its guards deny until a load. |
| ScopePolicies.ScopePolicy.Reload | internal/ai/policy.go:179-216 | Publishes the rules of one directory seen before and after the read, or only marks the reload pending. |
| ScopePolicies.DetachmentLasts | internal/ai/policy.go:254-270 | In any history, from a detachment until the next attachment the policy is detached, so every guard answers so. |
| ScopePolicies.ScopePolicy.Attach | internal/ai/policy.go:262-270 | A reload, then attached. |
| ScopePolicies.ScopePolicy.ProtectConfigSource | internal/ai/policy.go:299-345 | A NUL, relative or non-canonical path is refused with nothing changed; another volume's source is accepted with nothing to do; a source in the repository is protected by its lower-case name even when its file cannot be looked up, the only other failure; a found file is protected by identity. |
| ScopePolicies.ScopePolicy.Check | internal/ai/policy.go:382-429 | Allowed exactly when attached, current, not the file of a protected source, and no spelling is malformed, protected, denied by the floor or denied by a rule. |
| ScopePolicies.RunPublishes | internal/ai/policy.go:179-216 | In any history the published rules are those of one whole load. |
| ScopePolicies.DenialIsInherited | internal/ai/policy.go:382-429 | In any history, a path denied for its spelling, a protected file or a rule stays denied for everything below it. |
| ScopePolicies.ProtectionsLast | internal/ai/policy.go:299-345 | Protected names and files survive every later reload, detach, attach and protection. |
| ScopePolicies.SourcesStayDenied | internal/ai/policy.go:299-345 | In every later history, the name of a protected config source and everything below it is denied under any workspace prefix, and so is every hard link of its file. |
| GitignoreMatcher.MatchGitignorePath | internal/filesystem/reader.go:193-237 | The matcher, memoised or not, decides the declarative relation in which a final "**" covers at least one name. |
| GitignoreMatcher.FinalStars | internal/filesystem/reader.go:193-197 | "dir/**" matches exactly what is strictly below a match of "dir". |
| DirectoryReader.ShouldIgnore | internal/filesystem/reader.go:169-191 | Ignored exactly when the last rule that applies and matches is not negated. |
| DirectoryReader.BuildEntries | internal/filesystem/reader.go:241-269 | One level: the children not hidden or ignored, arranged; nothing when the directory does not list. |
| DirectoryReader.ReadDirRecursive | internal/filesystem/reader.go:282-305 | The recursive tree, an unlistable directory marked unreadable. |
| DirectoryReader.LoadGitignoreRules | internal/filesystem/reader.go:307-323 | The rules from the root down, or ignored exactly when some directory on the way is. |
| DirectoryReader.ReadDirectoryShallow | internal/filesystem/reader.go:273-279 | The lazy level: empty below an ignored directory. |
| ReaderAgreement.ShallowAgrees | internal/filesystem/reader.go:273-305 | Wherever the recursive reader goes, the lazy one returns the same entries in the same order with children dropped; the recursive one also marks a directory whose own listing fails, so the levels are equal if and only if every readable directory of the level lists. |
| ReaderAgreement.LevelsCanDiffer | internal/filesystem/reader.go:294-303 | A tree on which the two levels differ. |
| ReaderAgreement.NothingBelowIgnored | internal/filesystem/reader.go:273-279 | At and below an ignored directory the lazy reader returns nothing, and the recursive one never gets there. |
| SessionStore.MemorySessionStore.constructor | internal/ai/sessionstore.go:54-60 | An empty, valid store. |
| SessionStore.MemorySessionStore.Load | internal/ai/sessionstore.go:64-79 | A stored conversation comes back as committed, at its highest revision; a missing one is not found. |
| SessionStore.MemorySessionStore.Save | internal/ai/sessionstore.go:93-135 | Commits one above the floor or refuses for exactly the stated reason with nothing changed, int64 wrap-around included. |
| SessionStore.MemorySessionStore.Delete | internal/ai/sessionstore.go:145-151 | Drops the snapshot and its bytes, keeps the floor, advances the generation. |
| SessionStore.SaveKeepsValid | internal/ai/sessionstore.go:93-135 | A Save keeps the total equal to the sum of the snapshots within the cap, and each snapshot an encoding of its ID at the floor. |
| SessionStore.DeleteKeepsValid | internal/ai/sessionstore.go:145-151 | So does a Delete. |
| SessionHistory.RevisionsIncrease | internal/ai/sessionstore.go:81-135 | In any sequence of Save and Delete the committed revisions of an ID strictly increase. |
| SessionHistory.PositiveSaveReplacesItsOwn | internal/ai/sessionstore.go:112-124 | A Save with a positive revision replaces only the snapshot of the one Save that committed that revision, with no replacement, deletion or recreation between. |
| SessionHistory.StaleWriterConflicts | internal/ai/sessionstore.go:137-151 | A writer holding a revision from before a deletion never commits with it. |
| SessionHistory.AlwaysAccounted | internal/ai/sessionstore.go:93-151 | The total is always the sum of the retained snapshots within the cap, and a refusal changes nothing. |
| SessionHistory.FloorGrows | internal/ai/sessionstore.go:145-162 | Floors and generations never go back. |
| ConsentFile.ParseConsentGrants | internal/ai/consent.go:154-191 | Parses exactly the files that are version 1 and a set of valid, distinct records; anything else fails the whole file. |
| ConsentFile.EncodeConsentFile | internal/ai/consent.go:368-379 | The file holds exactly the set. |
| ConsentFile.HoldsReadsBack | internal/ai/consent.go:154-191 | The file that holds a set of valid grants reads back as exactly that set. |
| ConsentFile.OneEncoding | internal/ai/consent.go:366-379 | The bytes of a set do not depend on map iteration order. |
| ConsentCrash.RunHolds | internal/ai/consent.go:245-270 | The durability invariant holds after every run of opens, persists, failures and crashes. |
| ConsentCrash.FoundSetsAreWhole | internal/filesystem/atomic.go:61-88 | Whatever crashed, every content a later open can find is the file found at first or one complete attempted set, which it reads exactly if and only if its encoding is within 256 KiB. |
| ConsentCrash.GrantsOutliveCrashes | internal/ai/consent.go:249-270 | A grant once authorised in memory is in every set memory later authorises and in every content a later open can find. |
| ConsentCrash.MemoryIsDurable | internal/ai/consent.go:245-270 | While a store is open every possible content contains its set. |
| ConsentCrash.OversizedSetIsRefused | internal/ai/consent.go:80-133 | A set whose file is over 256 KiB (such as one record with an over-long provider, in any encoding that spells providers out) is persisted in full and authorised, and after a restart the store reads nothing and is unavailable. |
| ConsentDurability.LaunchOutlivesCrashes | internal/ai/service.go:888-1112 | A remote turn the service launches goes to a destination that, whatever crashes or fails afterwards, every content a later process can find on disk holds. |
| ConsentDurability.GrantedIsBacked | internal/ai/consent.go:336-364 | A batch the store accepts leaves every destination of it in the merged set, under the digest the service asks by. |
| ConsentDurability.GrantsAreBacked | internal/ai/service.go:945-967 | Throughout a process every grant the service answers by is in the open store's memory. |
| ConsentStores.ConsentStore.constructor | internal/ai/consent.go:80-133 | Open: synced and validated, or unavailable. |
| ConsentStores.ConsentStore.WriteFileAtomic | internal/filesystem/atomic.go:61-88 | The effects in order; what is visible and what a power failure may leave after each failure. |
| ConsentStores.ConsentStore.PersistGrants | internal/ai/consent.go:249-270 | One persist is the steps of the crash machine; memory advances only after all of them. |
| ConsentStores.ConsentStore.GrantMany | internal/ai/consent.go:336-364 | An invalid destination refuses the batch with nothing changed; otherwise one persist of the merged set, if it adds anything. |
| ConsentStores.MergedIs | internal/ai/consent.go:336-364 | A batch is all or nothing, adds exactly its destinations and keeps every grant there was. |
| ReachableSet.ReachableDestinations | internal/ai/reachable.go:59-132 | Exactly one entry for every destination the route reaches and no other, each with exactly its hops, once each. |
| RoleUsage.Usage | internal/ai/settings.go:793-826 | Each role's list is the sorted use cases that reach it; referenced are exactly the fallback targets and what a default reaches. Terminates on cycles. |
| RoleUsage.WalkRole | internal/ai/settings.go:809-824 | The depth-first walk appends the use case once to each configured role it newly sees and leaves every seen role's fallbacks seen. |
| RoleUsage.SeenIsReachable | internal/ai/settings.go:807-824 | A walk from nothing sees exactly what is reachable through fallbacks of configured roles. |
| RoleUsage.ListedOnce | internal/ai/settings.go:793-826 | A role lists a use case exactly once if the use case reaches it, and otherwise not. |
| RoleUsage.RemovalChangesNothing | internal/ai/settings.go:787-792 | Removing a role reported unreferenced changes no other role's list; its own was empty. |
| Unicode.Utf8ReadsBack | internal/filesystem/filereader.go:93-98 | Valid Unicode text is valid UTF-8 and its runes read back. |
| Unicode.ValidIsText | internal/filesystem/filereader.go:93-95 | The UTF-8 check accepts exactly the encodings of Unicode text, each of exactly one text. |
| Unicode.Utf16ReadsBack | internal/filesystem/filereader.go:102-129 | UTF-16 of sections 2.1 and 2.2 of RFC 2781 decodes to the text it encodes. |
| Unicode.EncodeUTF16 | internal/filesystem/filewriter.go:115-148 | The byte order mark and the units, filled in by index. |
| Unicode.DecodeUTF16 | internal/filesystem/filereader.go:102-129 | The units two bytes at a time, an odd last byte dropped, unpaired surrogates replaced. |
| Unicode.Utf16Bytes | internal/filesystem/filereader.go:102-129 | Text through UTF-16 bytes of either order comes back. |
| TextFiles.EncodeContent | internal/filesystem/filewriter.go:94-112 | The bytes written for each encoding name; an unknown name is plain UTF-8. |
| TextFiles.DetectAndDecode | internal/filesystem/filereader.go:74-99 | Byte order marks first, then valid UTF-8, then Latin-1. |
| TextFiles.DecodeBytes | internal/filesystem/filereader.go:42-71 | The record a file reads as. |
| TextRoundTrip.ConvertIsText | internal/filesystem/filewriter.go:77-91 | Converting line endings in the bytes is converting them in the text. |
| TextRoundTrip.EndingMeans | internal/filesystem/filereader.go:149-181 | What each reported ending means for any content: none, only LF, only CR, or every line end a CR LF pair; anything else is mixed. |
| TextRoundTrip.EndingsReported | internal/filesystem/filereader.go:149-181 | Converted text reports the chosen ending, or none when it has no line end. |
| TextRoundTrip.WriteThenRead | internal/filesystem/filewriter.go:77-148 | Text written with a byte order mark reads back exactly as converted with its encoding; in plain UTF-8 if and only if it does not start with U+FEFF. |
| TextRoundTrip.ReportsChosenEnding | internal/filesystem/filereader.go:42-71 | Then the ending reported is the one chosen, or none for binary text or text without a line end. |

## Left out

- Digests are the values they hash, so equal digests mean equal inputs; the request digest of a settings write is modelled this way.
- A config document is its reachable destinations, the agent target it selects and its bytes; document edits, routes, capabilities and profiles are not part of this model.
- A runner is a resource with a conversation and a target; providers, tools, events and the orchestrator are not part of this model.
- Conversation records are values in a map, so aliasing of one record by a run and the table is not modelled; runs, claims and logs are kept as history and never removed.
- Taking the binding gate and the conversation mutex for an admission is one step, as is the terminal cleanup under the conversation mutex and the index lock inside it.
- Time is a value any step may change, so expiry and deadlines may fire at any point; fresh IDs and tokens are assumed, and a step offered a used one changes nothing.
- ServiceRuntime.Service.StartTurn: the locks it waits for are found free, and its run ID stays claimed when a commit is undone, as in the source; blocked sections are steps that change nothing.
- ConsentDurability.LaunchOutlivesCrashes: takes the store's success to mean the batch is in its memory, which `GrantedIsBacked` and ConsentStores.ConsentStore.GrantMany prove of the store.
- The degraded-consent flag, status text, settings projections, emitted events and the relay of a turn's events with its output limit.
- Reading the settings projection while unbound builds a snapshot as a status poll does; only the latter is a step.
- The quit sequence is one flag; the caller-role check of a window request is one step with the request; a native window orphaned by a retired open is closed outside the model.
- Message payloads of the window protocol are only what the accepts look at: emptiness, the ack flag, validity.
- Window geometry uses unbounded integers, so the 64-bit overflow the source guards against cannot occur.
- Reading manifests and YAML; the file system's answer for a path is a parameter, as are the path library's clean, relative and absolute.
- ScopePolicies.DenialIsInherited: leaves out the floor, whose file patterns such as `**/*.pem` are not closed under descendants, and file identity, which a path below does not share.
- Parsing a `.gitignore` line into a rule; rules are given as parsed. Paths outside the root given to the lazy reader, for which the source uses the root's rules only.
- Git calls, conflict source versions and stage reads; a conflicted file is its lines and a marker size.
- Decoding JSON and YAML, except that encoding then decoding is the identity.
- A file system that cannot sync, on which the consent store refuses to open; the best-effort fallback of the atomic write is not modelled.
- ConsentStores.ConsentStore.GrantMany: the single-destination grant is the batch of one.
- The order of the destination listing by digest is that of the sort it is given.
- The language server, terminal, search, run profiles and user interface.
