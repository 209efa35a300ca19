# Rementor: a verified model

Rementor decides which local or remote service answers each host and path. It compiles that decision
into an nginx configuration and keeps four things in step: the workspaces in memory, the rows in SQLite,
the loaded proxy and a journal of route operations. This project models those parts in Dafny and proves
what they are meant to guarantee. `dafny verify dfyconfig.toml` checks all of it.

The model has six parts.

- **The nginx route compiler** (`Regex`, `Nginx`, `Renderer`, `ServerBuilder`, `Projection`, `Interning`,
  `Compact`, `CompactMeaning`, `ConfigBuilder`, `Agreement`). Location selection is nginx's: an exact location wins at
  once, otherwise the first matching regular expression overrides the longest prefix. A regular-expression
  map yields its first matching entry, or 0. Every server is printed with a ready location ahead of its own.
  Interning of response proofs and the folding of locations into one regular expression are proved to leave
  every answer and all eight headers as they were.
- **The route algebra** (`Patterns`, `Routes`, `RouteBuilder`, `Conflicts`, `Pairs`, `Resolver`,
  `Differences`, `Plans`, `Planning`, `AppNames`, `Relevance`, `Rendering`). Normalised routes, overlap, ownership, resolution,
  differences and plans, with the resolver proved to agree with what the renderer makes nginx do.
- **The route transaction protocol** (`Protocol`, `Environment`, `Transaction`, `Requests`, `Registries`,
  `Invariants`, `Mutations`, `Changes`, `Recovery`, `Runs`, `Versions`, `Idempotency`, `Replays`, `LostUpdates`,
  `Display`).
  The registry is a class whose methods run the steps of the source one by one against a world in which every
  external step may fail. Each method is proved to be a step of a relation between snapshots (`Sys`), and the
  theorems are about all runs of those steps, with a crash allowed at every point of an operation.
- **Session refresh** (`Sessions`) and the host check (`Hosts`).
- **The renderer's cache and installation** (`RenderCache`, `Install`).
- **The identity tables** (`Identity`).

`Text`, `Keyed`, `StableSort`, `Pairs` and `Differences` are general; `Model` holds workspaces and applications.

## Assumptions

- A state save, a replacement of the workspaces and a journal upsert are atomic: they happen or they do not.
- Hashes are injective, so a fingerprint, a refresh token and a render key stand for what they are the hash
  of. Operation identifiers are never repeated, also across restarts, and those already in the database were
  handed out before.
- A provider that is unavailable right after a failed apply has not changed what it serves
  (internal/services/registry.go:1917). Otherwise a failed apply may leave anything loaded.
- `InspectRouting` tells whether the file nginx includes has the text that the workspaces it is asked about are
  rendered to. That is also what nginx serves, unless the last apply failed (`Protocol.InFile`).
- Restart theorems take a restart to be a complete one: the database loads, the first reload succeeds and
  every open entry can be closed. `Undisturbed` runs are those in which no journal update was lost, so no
  finished operation leaves an open entry behind. In-process theorems need neither. The theorems on replays
  start where every committed key is on record, which every load establishes (`Replays.LoadIsKnown`).
- Patterns, hosts and identifiers have the form validation enforces (`RouteBuilder.ValidWorkspace`,
  `Projection.RoutingWorkspace`, `Conflicts.WellFormed`); what the builder makes of such workspaces is proved,
  not assumed.

## What turned out differently from the documentation

- Folding is not quite meaning-preserving: in nginx's regular expressions `$` also matches before a final
  newline, so a folded exact location answers its path followed by a newline. `CompactionAnswersTarget` says
  what the folded server answers for every request, `CompactionPreservesEverythingIff` says for which
  configurations nothing changes, and `DollarAcceptsNewline` is a configuration for which something does.
- The template prints `location = /__rementor/config-ready` into every server (internal/nginx/config.go:716). At
  that path nginx sends none of the eight headers and the resolver's answer is not what is served
  (`Agreement.ResolverAgreesWithNginx`). Validation does not reserve the path: an application that asks for it
  gives its server the same location twice, unless its own one is folded away
  (`ConfigBuilder.ServerIsPrintableIff`, `CompactMeaning.CompactedReadyIff`).
- A route version does not identify a workspace. Registering an alias changes every workspace that binds the
  identity but raises the version of one (internal/services/registry.go:1007-1032). The higher version it writes
  on the bindings elsewhere does not help: applying the candidate gives every application the version and the
  operation of its workspace before anything is saved (internal/services/registry.go:2202-2203). What a version
  does identify is the routes. Under one version the workspace is unchanged exactly when no registration for an
  identity it binds went through elsewhere (`Versions.VersionsIdentifyRoutes`, `Versions.AliasRebindsIff`,
  `Versions.StampingRebindsNothing`), and where there is such an identity one can
  (`Versions.AliasChangesUnderOneVersion`).
- The bound of 100000 in the precedence number does not matter for resolution: of two routes that match the
  same path an exact one is at least as long as the path (`Resolver.PrecedenceOfMatches`).
- After a restart a committed request is replayed only if it named its application and environment the way
  its plan does. A request by alias, or one on a session that leaves its environment blank, is then refused
  because of its own key (`Idempotency.RestartReplaysIffCanonical`, `Replays.LaterRequestsGetTheOperation`).
- A lost best-effort journal update matters. A restart decides an entry left open by its workspace's version
  (`LostUpdates.LostUpdateIsDecidedByVersion`). A committed operation is decided rightly exactly as long as
  nothing has moved its workspace on (`LostUpdates.CommitIsForgottenIffMoved`). An aborted one is decided wrongly
  exactly when the version it gave back went to its own workspace, which still has it
  (`LostUpdates.AbortIsForgedIffVersionTaken`); its key is then answered as if it had taken effect, and two
  ordinary requests lead there (`LostUpdates.ForgeryHappens`).
- The refresh token covers neither the environment's local domain nor its version nor what validation says, so
  an apply can change the session's hostname without the preview having shown it (`Sessions.AppliedIsShownIff`,
  `Sessions.DomainEscapesTheToken`).
- An in-sync answer is about the file, not the workers. After a failed apply whose last reload is lost the file
  can have the old text while the workers serve the new one (`Install.InspectionCanMislead`), and a
  synchronisation then reports the workspace verified (`Invariants.InSyncIsVerified` says what holds). In every
  execution of a sequence of installations a positive answer is right exactly when their results leave no doubt
  (`Install.InspectionTellsIff`): where there is a file and the last installation that touched it brought another
  text, exactly when that one was served and verified (`Install.LastTouchDecides`).

## Model

| member | source | states |
|---|---|---|
| Regex.QuotedPrefix | internal/nginx/compact.go:75-79 | a quoted pattern anchored at the start matches exactly the requests it is a prefix of |
| Regex.QuotedExact | internal/nginx/compact.go:76-78 | a quoted pattern with `$` matches exactly the path and the path plus one newline |
| Regex.AlternativesOfJoin | internal/nginx/compact.go:85 | the joined alternation matches exactly when one of the quoted alternatives does |
| Nginx.SelectPicks | internal/nginx/config.go:629-638 | what selection returns is what the location rule prescribes, for every list of locations |
| Nginx.PicksIsUnique | internal/nginx/config.go:653-673 | with one location per modifier and pattern the rule prescribes one location only |
| Nginx.ReplyIs | internal/nginx/config.go:715-720 | the ready location that every server is printed with takes its own path and leaves every other one to the server |
| Nginx.PrintedIsUniqueIff | internal/nginx/config.go:715-720 | the printed server has no place twice if and only if none of its own locations is at the ready location's |
| Interning.InternProofs | internal/nginx/config.go:206-229 | the loop over servers and locations leaves the interned servers and the eight columns of the proof table |
| Interning.InternedLocation | internal/nginx/config.go:214-228 | interning changes nothing of a location but its index, and the index leads to its proof |
| Interning.SharedIndexIffEqualProof | internal/nginx/config.go:214-228 | two locations anywhere share an index if and only if their proofs are equal |
| Interning.HeadersOfEntry | internal/nginx/config.go:223-225 | the eight columns read at an index are the eight fields of the proof entered there |
| Compact.GroupByProxy | internal/nginx/compact.go:25-35 | groups and their order: mergeable locations by proxy, in order of first appearance |
| Compact.OverlapsOutside | internal/nginx/compact.go:46-55 | whether a location overlaps one outside its group, the catch-all apart |
| Compact.SafeIndexes | internal/nginx/compact.go:44-59 | the indexes of the group's locations that clash with nothing outside it |
| Compact.MergeGroup | internal/nginx/compact.go:63-88 | the folded location and the ordered map of one group, exact entries first, then longer ones |
| Compact.CompactLocations | internal/nginx/compact.go:22-98 | the whole pass leaves each server's kept locations followed by its folded ones, and appends their maps |
| CompactMeaning.SafeGroupsAreDisjoint | internal/nginx/compact.go:44-59 | safe locations of different groups never answer the same request |
| CompactMeaning.LongerThanSafeIsSafe | internal/nginx/compact.go:44-59 | a location under a safe one that also matches the request is in its group and safe too |
| CompactMeaning.FoldedWinner | internal/nginx/compact.go:63-88 | the original winner is folded and comes first among the matching entries of its group |
| CompactMeaning.MapNameIsInjective | internal/nginx/compact.go:70-71 | no two folded groups of a configuration share a map name |
| CompactMeaning.AllMapsServe | internal/nginx/compact.go:84-88 | each folded location's selector finds its own group's map among all maps |
| CompactMeaning.CompactionAnswersTarget | internal/nginx/compact.go:22-98 | for every request the folded server answers what the original answers for the request without the newline a `$` ignores |
| CompactMeaning.CompactionPreservesMeaning | internal/nginx/compact.go:22-98 | for every request not ending in a newline proxy and proof index are those of the original server |
| CompactMeaning.CompactionPreservesEverythingIff | internal/nginx/compact.go:75-78 | nothing changes for any request if and only if every folded exact location lies below a prefix location with the same rendering and proof index |
| CompactMeaning.SameBelowIffSameAnswer | internal/nginx/compact.go:75-78 | lying below such a location means that the path and the path plus a newline were answered alike |
| CompactMeaning.CompactedReadyIff | internal/nginx/compact.go:89-97 | of a folded server's own locations only one that was not folded can be at the ready location's place |
| CompactMeaning.DollarAcceptsNewline | internal/nginx/compact.go:75-78 | four folded exact routes and a fallback: a request for /a plus a newline moves from the fallback to /a |
| ServerBuilder.CollectPatterns | internal/nginx/config.go:188-196 | the table holds each application's patterns once, in the order of the routes |
| ServerBuilder.DedupeLocations | internal/nginx/config.go:653-673 | the first location of each modifier and pattern remains, ordered by rank |
| ServerBuilder.BuildRoutingServer | internal/nginx/config.go:235-291 | the passes over the applications, the fallback and the deduplication leave the routing server |
| ServerBuilder.BuildWorkspaceServers | internal/nginx/config.go:165-204 | the servers of a workspace, each built with one pattern table: its default host and one per application domain |
| ConfigBuilder.ServersAreRenderable | internal/nginx/config.go:653-720 | every assembled server has one location per modifier and pattern, no regular expressions and absolute patterns, and as printed no place twice unless one of them is at the ready location's |
| ConfigBuilder.ServerIsPrintableIff | internal/nginx/config.go:715-720 | for the server of any host of a workspace that is so exactly when no application it answers for asks for that very path |
| ConfigBuilder.HeadersTellTheChosenLocation | internal/nginx/config.go:206-232 | through interned indices and folded maps the eight headers are the proof of the location the plain configuration chooses, and none is sent at the ready path |
| ConfigBuilder.HeaderNamesResolvedApplication | internal/nginx/config.go:206-232 | on every host of a workspace a request gets the headers if and only if it is not for the ready path, and then the application header is the application the resolver names |
| ConfigBuilder.BuildConfig | internal/nginx/config.go:151-232 | the configuration built answers every request with the headers of the location uncompacted nginx would choose, the ready location included |
| Agreement.CorrespondingMatch | internal/nginx/config.go:629-638 | a route and its rendered location match the same normal paths |
| Agreement.ResolverAgreesWithNginx | internal/services/routes.go:1018-1033 | on the default host and on every application's own, for every normal path but the trace paths, the resolver and nginx choose the same application and pattern, or both fall through, if and only if the path is not the ready path |
| Patterns.CanonicalPathIsNormal | internal/services/routes.go:204-219 | normalising a path that validation accepts changes nothing |
| Patterns.CanonicalPatternInfo | internal/services/routes.go:256-266 | what a valid pattern matches, its exactness and its length |
| RouteBuilder.BuildNormalizedRoutes | internal/services/routes.go:464-545 | the appending loops, the deduplication and the sort leave the normalised routes |
| RouteBuilder.HostnamesAreStable | internal/services/routes.go:221-227 | lower-case dotted names, with or without one final dot, are normalised once and for all |
| RouteBuilder.NormalizedRoutesAreWellFormed | internal/services/routes.go:464-545 | every route built for a valid workspace is well formed, with one route per key and one spelling per pattern |
| Projection.NormalizedRouteIsRaw | internal/services/routes.go:314-332 | every normalised route comes from a built one with the same key |
| Projection.EntryIsLookedUp | internal/nginx/config.go:188-196 | every pattern an application asks for is among the patterns the renderer looks up for it |
| Conflicts.OverlapIsExact | internal/services/routes.go:652-692 | the precomputed overlap holds if and only if some request path matches both routes, and equals the simple overlap |
| Conflicts.ReportConflicts | internal/services/routes.go:757-839 | the quadratic loop over precomputed matchers reports the conflicts of all pairs, sorted |
| Conflicts.ConflictReportIsExact | internal/services/routes.go:757-839 | a pair is reported if and only if host, owners and some shared path make it ambiguous, and with its winner |
| Conflicts.ReportIsSymmetric | internal/services/routes.go:705-731 | the entry of a pair does not depend on which route comes first |
| Conflicts.ConflictReportIsUnordered | internal/services/routes.go:757-839 | the report does not depend on the order of the routes |
| Resolver.RouteLessIsStrictWeak | internal/services/routes.go:298-312 | the comparator of sortRoutes is a strict weak order |
| Resolver.ResolveRoutes | internal/services/routes.go:1018-1033 | the candidate loop and sort return the resolution |
| Resolver.PrecedenceOfMatches | internal/services/routes.go:394-397 | among routes matching one path the precedence number ranks exact before prefix and longer before shorter |
| Resolver.TieGoesToOwner | internal/services/routes.go:705-731 | between routes with one pattern sort order is owner order |
| Resolver.ResolverPicksTheWinner | internal/services/routes.go:1018-1033 | a route is found if and only if one matches, and it beats every other matching route under routeConflictWinner |
| Resolver.ResolverIsUnordered | internal/services/routes.go:1018-1033 | the resolution does not depend on the order of the routes |
| Differences.DiffIsAPatch | internal/services/routes.go:592-633 | carrying out the changes turns the old keyed elements into the new ones |
| Differences.ChangesAreExact | internal/services/routes.go:612-631 | every key whose elements differ is reported, with both sides, and nothing else |
| Differences.DiffIsEmptyIffSame | internal/services/routes.go:592-633 | the difference is empty if and only if each element has its counterpart |
| Plans.DiffRoutes | internal/services/routes.go:592-633 | the two index loops, the sorted keys and the comparison loop return the difference, each change filed under an application |
| Plans.ChangesAreFiledUnderTheirOwner | internal/services/routes.go:620-623 | that application owns both sides of the change |
| Plans.KeyListIsDetermined | internal/services/routes.go:601-612 | the sorted key list is determined by the keys |
| Plans.RouteDiffIsAPatch | internal/services/routes.go:592-633 | applying a route difference to the old projection gives the new one up to routeEquivalent |
| Plans.ProjectionHasOneRoutePerKey | internal/services/routes.go:588-590 | no two routes of a projection share a change key, so the index maps lose nothing |
| Plans.RouteDiffIsEmptyIffSame | internal/services/routes.go:584-633 | a difference of two projections is empty if and only if they hold the same routes up to routeEquivalent |
| AppNames.CanonicalFindsTheSame | internal/services/registry.go:1605-1638 | looking a found application up by its canonical identity finds it again or is ambiguous |
| Planning.RulesAreLawful | internal/services/routes.go:896-956 | a plan edits state columns of one application and is based on the workspace's version, routes depend on neither versions nor aliases, and the text on no more than routes and what is shown of versions and operations |
| Planning.PlansAreCanonical | internal/services/routes.go:896-956 | planning a plan again gives that plan |
| Planning.CommittedRoutesArePlanned | internal/services/registry.go:680-701 | the routes of the stamped candidate are the plan's after side |
| Planning.NoOpIffSameRoutes | internal/services/registry.go:673-678 | the no-op branch is taken if and only if the edit leaves the routes as they were |
| Relevance.RoutesDependOnBare | internal/services/routes.go:464-545 | routes do not depend on versions, operations, statuses or annotations |
| Protocol.SaveWritesCandidate | internal/config/config.go:215-262 | updating state columns row by row writes the whole candidate when it differs in nothing else |
| Protocol.PutTwice | internal/config/config.go:277-328 | upserting an entry twice leaves the last version, last in update order |
| Environment.World.SaveState | internal/config/config.go:215-262 | all state columns of the given workspaces are written, or nothing is |
| Environment.World.WriteEntry | internal/config/config.go:268-328 | the entry is inserted or replaced, or nothing is written |
| Environment.World.InspectRouting | internal/nginx/provider.go:163-185 | an answer, if there is one, is whether the included file was rendered from these workspaces |
| Environment.World.ApplyRouting | internal/services/routing_provider.go:24-28 | success loads the workspaces; failure of a provider that is then unavailable changes nothing |
| Registries.Registry.RecordEffectiveRoutes | internal/services/registry.go:2053-2069 | the cache gets routes, version and verification of each workspace |
| Registries.Registry.MarkRoutingUnavailable | internal/services/registry.go:2249-2260 | the given workspaces lose their verification and keep their routes |
| Registries.Registry.ProjectRouteStates | internal/services/registry.go:2225-2239 | the nested loops leave workspaces whose every application has the version and the operation of its workspace, and nothing else changed |
| Registries.Registry.ApplyRouting | internal/services/registry.go:2262-2319 | only a successful apply records, and projects the caller's workspaces; an optional one without a provider marks and projects instead |
| Registries.Registry.RollbackAfterApplyFailure | internal/services/registry.go:1914-1923 | nothing is undone when the provider is not available, otherwise the previous workspaces are loaded or the failure is reported |
| Registries.Registry.ReleaseOperationVersion | internal/services/registry.go:1925-1932 | the version is given back only while it is the last one handed out |
| Registries.Registry.BeginOperation | internal/services/registry.go:1161-1175 | an operation takes the next version and a new identifier |
| Registries.Registry.Transact | internal/services/registry.go:721-789 | journal, proxy, rows, memory: either the proxy has the candidate and rows and memory what is published of it, or memory and rows are as before and the outcome says what became of the proxy; every disk on the way is one a restart can read |
| Registries.Registry.UndoSave | internal/services/registry.go:771-785 | after a failed save rows and proxy are put back, and degraded is reported exactly when one of the two failed |
| Registries.Registry.AnswerNoOp | internal/services/registry.go:1828-1876 | a no-op changes nothing but the records of its key |
| Registries.Registry.ApplyRoutePlan | internal/services/registry.go:578-808 | the whole operation, strict metadata checks included, is one step of the request relation and keeps the invariant; degraded is reported exactly when a compensation failed |
| Registries.Registry.SyncRoute | internal/services/registry.go:814-966 | the whole operation is one step of the synchronisation relation and keeps the invariant; degraded is reported exactly when a compensation failed |
| Registries.Registry.Mutate | internal/services/registry.go:1513-1545 | the whole operation, with the projection between the edit and the save, is one step of the mutation relation and keeps the invariant |
| Registries.Registry.RestoreRouteJournal | internal/services/registry.go:1938-1967 | every journaled version is reserved and every committed key restored, later entries last |
| Registries.Registry.ReconcileRouteJournal | internal/services/registry.go:1973-2012 | every open entry is committed or rolled back by the saved version, and committed keys are restored |
| Registries.Registry.Load | internal/services/registry.go:150-213 | a complete load leaves the state that recovery computes from the disk |
| Requests.PlannedIsReady | internal/services/registry.go:680-704 | a lawful plan's candidate can be written by a state save |
| Requests.LoadedIsEffective | internal/services/registry.go:790-791 | right after a commit the workspace's routes are verified as effective |
| Invariants.RecordingACandidateIsHonest | internal/services/registry.go:2053-2069 | recording a candidate that is then given up claims nothing false about the old workspaces, although its version may be handed out again |
| Invariants.DecisionIsPlanned | internal/services/registry.go:599-679 | a request that goes ahead has an unused key, a current version and the plan it carries |
| Invariants.ApplyKeepsGood | internal/services/registry.go:578-808 | every outcome of a request keeps the invariant |
| Invariants.SyncKeepsGood | internal/services/registry.go:814-966 | every outcome of a synchronisation keeps the invariant |
| Invariants.InSyncIsVerified | internal/services/registry.go:838-865 | in-sync is said of a proxy whose file has the text memory is rendered to, and leaves the workspace verified with its own routes; unless the last apply failed that text is what the proxy serves |
| Mutations.MutateKeepsGood | internal/services/registry.go:1513-1545 | every outcome of a mutation keeps the invariant |
| Mutations.MarkingIsHonest | internal/services/registry.go:2249-2260 | marking a provider unavailable claims nothing |
| Changes.ToggleIsLawful | internal/services/registry.go:1228-1258 | a toggle stamps its workspace and changes state columns only |
| Changes.ToggleAllIsLawful | internal/services/registry.go:1266-1331 | toggling all applications stamps the workspace and all of them and changes state columns only |
| Changes.UpdatePatternIsLawful | internal/services/registry.go:1489-1505 | so does a new route pattern |
| Changes.UpdateApplicationsIsLawful | internal/services/registry.go:1371-1398 | new applications and defaults come with a stamp on the workspace and all of them |
| Changes.RewriteSessionIsLawful | internal/services/sessions.go:429-493 | an edited or refreshed session is stamped, and its applications keep their last operations or have none |
| Changes.CreateSessionIsLawful | internal/services/sessions.go:145-190 | a new session is stamped and leaves every other workspace as it was |
| Changes.RegisterAliasIsLawful | internal/services/registry.go:976-1034 | registering an alias stamps its workspace, and elsewhere writes its operation on bindings only, in what routes do not depend on |
| Changes.SiblingsKeepTheirVersion | internal/services/registry.go:1007-1032 | once published, every other workspace that binds the identity has changed under the version it had, its applications have that version, and only the last operation of the bindings is new |
| Changes.SyncRoutingIsLawful | internal/services/registry.go:1341-1352 | SyncRouting stamps every workspace and changes state columns only |
| Changes.DeleteIsLawful | internal/services/registry.go:1456-1472 | a deletion leaves every other workspace as it was |
| Changes.CreateIsLawful | internal/services/registry.go:1409-1428 | a creation stamps the new workspace and leaves the others as they were |
| Recovery.ReloadIsGood | internal/services/registry.go:150-213 | from any disk a complete load establishes the invariant, with memory, rows and proxy equal |
| Recovery.LoadReservesVersions | internal/services/registry.go:165-178 | after a load the next operation gets a version above every one that is saved or journaled |
| Recovery.OnlyCandidateMatches | internal/services/registry.go:1988-1989 | the saved version equals the entry's if and only if the candidate was saved |
| Recovery.CrashSafety | internal/services/registry.go:1973-2012 | from any point of a transaction a restart finds at most one open entry, commits it exactly when the rows had been saved, and leaves memory, rows and proxy equal |
| Runs.EveryStateIsGood | internal/services/registry.go:578-808 | the invariant holds in every state of every run with crashes |
| Runs.AllOrNothing | internal/services/registry.go:680-808 | success changes memory, rows and proxy together: memory and rows are what is published of the proxy's workspaces, and from consistent states on they have the same text; anything else leaves memory and rows alone, and the proxy too unless degraded is reported |
| Runs.SyncAllOrNothing | internal/services/registry.go:877-966 | the same for a repair, which raises its workspace's version and leaves its routes; a repair that fails gives its version back |
| Runs.MutateAllOrNothing | internal/services/registry.go:1513-1545 | the same for other mutations, where a failed restoration is in the error; what becomes current is published of a candidate in which every workspace is as it was, has a version above every earlier one, or differs in bindings the operation is written on |
| Runs.EditRaisesVersion | internal/services/registry.go:1196-1217 | a committed edit of one workspace raises its version and leaves the others as published |
| Runs.PublishedShowsTheSame | internal/services/registry.go:2199-2204 | from consistent workspaces on, the projection after an apply changes nothing of the text that was applied |
| Runs.VerifiedIsHonest | internal/services/registry.go:2131-2176 | in every reachable state a workspace reported verified at its published version has its own routes in the cache |
| Runs.InterruptedRequestRecovers | internal/services/registry.go:706-808 | crash safety for every point of ApplyRoutePlan |
| Runs.InterruptedSyncRecovers | internal/services/registry.go:877-966 | crash safety for every point of SyncRoute |
| Versions.EveryStateIsConsistent | internal/services/registry.go:2202-2203 | in every run that starts so, every application has the version and the operation of its workspace in every state |
| Versions.VersionsIdentifyRoutes | internal/services/registry.go:1161-1175 | while a workspace stays registered its version never falls, across releases and restarts; equal versions mean equal routes, and an unchanged workspace if and only if no step in between wrote its operation on bindings of that workspace only |
| Versions.StampingRebindsNothing | internal/services/registry.go:1196-1217 | a change that stamps every workspace it touches never does that; all but alias registrations are proved to be such changes |
| Versions.AliasRebindsIff | internal/services/registry.go:1007-1032 | an alias registration that went through, also one that crashed with its rows saved, did that to exactly the other workspaces that bind its identity |
| Versions.AliasChangesUnderOneVersion | internal/services/registry.go:1007-1032 | wherever a valid alias is registered for an identity that a second workspace binds, a step changes that workspace under one version, which its applications have too |
| Versions.TakingFollowsThePlan | internal/services/registry.go:645-669 | a request that takes effect was planned against the version it replaces, and raises it |
| Versions.NoLostUpdates | internal/services/registry.go:640-672 | of all plans made for one version of a workspace at most one ever takes effect, under any interleaving and with crashes |
| Idempotency.SpentAnswers | internal/services/registry.go:605-622 | a request whose key has had its effect changes nothing: the recorded intent is answered from the record, any other refused |
| Idempotency.LaterRequestsReplay | internal/services/registry.go:599-623 | while the process lives later requests with a committed key get that result if and only if their intent is the same |
| Display.ProjectedRoutes | internal/services/registry.go:2141-2176 | the loop overwrites the effective fields of every desired route from the cached one with its key, with the verification and the health of the proxy |
| Display.VerifiedShowsTheRoutes | internal/services/registry.go:2118-2176 | routes shown as verified are, in every reachable state, exactly what the workspace routes, on a proxy shown to be up |
| Display.EffectiveWasLoaded | internal/services/registry.go:2162-2171 | no effective mode or target is shown that was not loaded under the same key |
| Idempotency.LoadKeeps | internal/services/registry.go:1947-1964 | a restart keeps every committed entry and its key |
| Idempotency.CrashSpends | internal/services/registry.go:1991-2000 | a commit interrupted before its last journal update gets its key back from the journal |
| Idempotency.AtMostOneEffect | internal/services/registry.go:599-623 | over any undisturbed run with crashes at most one request per workspace and key takes effect |
| Idempotency.TwoEffectsMeanDegraded | internal/services/registry.go:729-785 | two requests with one key both disturb rows or proxy only if the caller of the first was told it left the proxy degraded, and then the first left the rows alone |
| Idempotency.RestartReplaysIffCanonical | internal/services/registry.go:2046-2051 | after a restart a committed request is answered with its own result if and only if its intent is that of its plan |
| Replays.LoadIsKnown | internal/services/registry.go:1938-1967 | a load puts every committed key on record |
| Replays.TakingRemembers | internal/services/registry.go:605-622 | a request that takes effect, crashed or not, leaves exactly one committed entry for its key, and the record of it |
| Replays.LaterRequestsGetTheOperation | internal/services/registry.go:599-623 | over any undisturbed run with crashes a later request with the key of one that took effect gets that one's operation if and only if its intent is on record, which after a crash is the one of the journal entry; otherwise it is refused |
| Replays.CanonicalRequestsReplay | internal/services/registry.go:2046-2051 | if the first request named its application the way its plan does, the same intent always gets its operation and any other is refused |
| LostUpdates.RestartDecides | internal/services/registry.go:1973-2012 | whatever else is open, a restart commits an open entry if and only if its workspace has its version, and then answers its key |
| LostUpdates.LostUpdateIsDecidedByVersion | internal/services/registry.go:1988-2007 | over any run without crashes after an operation that left its entry open, the next restart commits it if and only if the workspace has its version then |
| LostUpdates.CommitIsForgottenIffMoved | internal/services/registry.go:2003-2007 | a committed operation is decided rightly if and only if its workspace has kept the version |
| LostUpdates.AbortIsForgedIffVersionTaken | internal/services/registry.go:1925-1932 | an aborted operation is decided wrongly if and only if some later step gave the version it gave back to its workspace, which has kept it |
| LostUpdates.LostUpdateForgesACommit | internal/services/registry.go:1988-2002 | an open entry with the version of a later commit is marked committed and its key restored |
| LostUpdates.LostUpdateForgetsACommit | internal/services/registry.go:2003-2007 | an open entry of a commit that was followed by another is marked rolled back |
| LostUpdates.RunForgesACommit | internal/services/registry.go:729-742 | a failed request with a lost closing update, followed by a commit, is answered after a restart as if it had succeeded |
| LostUpdates.ForgeryHappens | internal/services/registry.go:729-742 | from every state in which a keyed request would go ahead there are two such steps |
| Sessions.FieldsAreNamed | internal/services/sessions.go:255-261 | the fields the merge skips are the four the source names |
| Sessions.MergeFields | internal/services/sessions.go:255-265 | the reflective loop takes each field by the three-way rule |
| Sessions.MergeSession | internal/services/sessions.go:222-280 | the two loops build the merged list, the changes and the conflicts |
| Sessions.FieldLaws | internal/services/sessions.go:254-269 | an inherited application follows the environment in every field the session left alone and keeps its own value in every other; port and activation always survive |
| Sessions.DroppedOnlyIfUntouched | internal/services/sessions.go:244-253 | an application disappears only if the environment dropped it and nothing distinguishes it from its baseline |
| Sessions.DeletionsStay | internal/services/sessions.go:270-280 | an application deleted in the session is not added again |
| Sessions.NewcomersArrive | internal/services/sessions.go:270-280 | an application new in the environment is added as it is and reported |
| Sessions.MergeKeepsIdentitiesDistinct | internal/services/sessions.go:230-280 | each application is in the merged list once |
| Sessions.MergeConverges | internal/services/sessions.go:222-280 | with the environment as baseline any session merges to itself without changes or conflicts |
| Sessions.ApplyRefresh | internal/services/sessions.go:429-457 | an apply succeeds only with the token of the state it finds and without conflicts of the merge or of validation, and then applies that state's preview |
| Sessions.RefreshConverges | internal/services/sessions.go:284-316 | after a refresh the same environment has nothing to add to the merge, and what validation says is all there is to report |
| Sessions.TokenCoversThePreview | internal/services/sessions.go:212-221 | of one session a token stands for one merge, up to the environment's local domain and version |
| Sessions.AppliedIsShownIff | internal/services/sessions.go:212-221 | what is applied is what was shown if and only if the hostname, the environment's version and what validation says are unchanged |
| Sessions.DomainEscapesTheToken | internal/services/sessions.go:290-294 | two environments with one token whose previews differ in the hostname |
| Hosts.OverlapIsSharedHost | internal/services/sessions.go:543-553 | two host patterns overlap if and only if some host is answered by both |
| Hosts.ValidateSessionHosts | internal/services/sessions.go:512-542 | the loops find a conflict if and only if two claims, one of them a session's, overlap |
| Identity.Database.EnsureApplicationIdentity | internal/config/config.go:1257-1327 | a binding is written completely or refused with the tables unchanged |
| Identity.BindKeeps | internal/config/config.go:1257-1327 | a binding keeps the tables unambiguous, and no service or alias changes hands |
| Identity.NamesLeadToTheApplication | internal/config/config.go:1302-1325 | afterwards every alias of the binding leads to its application |
| Identity.TablesStayUnambiguous | internal/config/config.go:1257-1327 | over any sequence of bindings no alias is an application's own name and every alias has a registered owner |
| Identity.RegistrationsStay | internal/config/config.go:1276-1290 | over any sequence of bindings a registered service and an alias's owner stay |
| Rendering.TwinsHaveTheSameServers | internal/nginx/config.go:235-291 | workspaces that route alike and show the same versions and operations have the same servers, every proof header included |
| Rendering.TwinsReadTheSame | internal/nginx/config.go:235-291 | lists of such workspaces are printed from the same servers |
| RenderCache.KeyServers | internal/nginx/config.go:235-291 | rendering reads nothing of a workspace that the cache key drops |
| RenderCache.Provider.FragmentFor | internal/nginx/provider.go:404-422 | a reused fragment is the one rendering afresh would give, and refusals by validation or conflicts are those of rendering afresh |
| RenderCache.Provider.Render | internal/nginx/provider.go:371-427 | whatever was rendered before, the result is that of rendering every workspace afresh |
| Install.Installer.Install | internal/nginx/provider.go:72-132 | success leaves file and last text equal, and workers too if verified; failure keeps the last text, puts the file back unless even that fails, and leaves workers with what they had, the new text or the file |
| Install.FailuresHappen | internal/nginx/provider.go:99-128 | every state that contract allows after a failure is reached by the source's steps: new file, reload, old file, reload |
| Install.KnowledgeHolds | internal/nginx/provider.go:72-132 | over any sequence of installations file and workers are what the results so far leave no doubt about |
| Install.InspectionTellsIff | internal/nginx/provider.go:162-184 | after any sequence of installations a positive inspection tells what the workers serve, in every execution, if and only if the results leave no doubt |
| Install.LastTouchDecides | internal/nginx/provider.go:72-132 | where there is a file and the last touching installation brought another text, that is so if and only if it was served and verified |
| Install.InspectionCanMislead | internal/nginx/provider.go:115-128 | from every agreeing file and workers and for every other text a failed installation can leave the old file with the workers serving the new text |

## Left out

- nginx beyond location selection, regular-expression maps and headers: redirects, rewrites of upstream paths, CORS and template text.
- The text level of rendering: map namespaces per workspace, the configuration digest and header sanitising. A fragment is the servers and maps it is printed from.
- Process handling: signals, sudo, worker retirement and timeouts. An apply succeeds or fails; `Install` has the file, the workers and the last text only, and a reload is done or lost when its command returns; one that is done later only brings the workers to the file.
- SQL, schema migration and file permissions; column types and the mapping of application identifiers to normalised row identifiers.
- Hashing, JSON, random identifiers and timestamps. The update order of the journal is the order of the writes.
- Health checks, subscribers, streams, RPC, CSRF, CLI, MCP and the frontend.
- Full URL and hostname validation; the parser of remote URLs is a function in `Renderer.Env`. Host names are lower-cased in ASCII only, and a host with several colons keeps its port.
- Legacy root-with-context registrations whose ingress path is the root; `RouteBuilder.ValidApplication` excludes the pattern they would get.
- The metadata rules and the wording of plan warnings; whether metadata is acceptable, strictly or not, is a function in `Planning.Checks`, and warnings are an opaque part of a plan.
- Providers that are not applied atomically, the absence of a provider, and the retry loop of loadProxyWithRetry; the nginx provider applies atomically and is always set.
- The displayed status in projectRouteStates and RouteStateFor: modes, targets, health and verification of workspaces and applications. It is not saved, routes and text do not read it, and it is recomputed from the same cache as `Display.ProjectedRoutes`. The versions and operations that projectRouteStates overwrites are modelled.
- Versions.VersionsIdentifyRoutes: an unchanged workspace means one with the same saved columns; its displayed status may change under one version.
- Versions.EveryStateIsConsistent: a database written by an earlier release may start inconsistent; the first step that changes memory aligns every application with its workspace (`Versions.MovingAligns`).
- Display.ProjectedRoutes: without the time of verification, which is a clock's.
- Defaults filled in by SetDefaults: workspaces are taken to have them already.
- AddWorkspace, which has no caller in the program: it keeps the version its argument comes with and so escapes the version discipline.
- Migration of session hostnames on load, and sessionBaseline itself: the environment's baseline is what a refresh starts from.
- The rules by which validation judges a refreshed session; what it says is a function in `Sessions.Problems`. RouteOverrideSet is not persisted, so a baseline read back from disk differs from the pinned one in that field.
- Conflicts.ReportConflicts: without the reason text of an entry, which is derived from its other fields; sort.Slice is modelled as a stable sort, and what is proved of the report is about its contents.
- Registries.Registry.ApplyRoutePlan: the returned projection of the routes is not part of the result, because `Display.ProjectedRoutes` recomputes it from the same cache.
- Registries.Registry.SyncRoute: the result has the operation and its outcome only; its warnings, versions and projected routes are read off the state.
- Registries.Registry.Load: an incomplete load only promises memory and versions, because the source logs the failure and goes on, and hosts are not migrated on load.
- Idempotency.AtMostOneEffect: an effect is a change of the rows; `Idempotency.TwoEffectsMeanDegraded` counts changes of the proxy too. A failed request that is reported degraded may have changed the proxy and can be sent again with its key.
- RenderCache.Provider.Render: the fragments are servers and maps, not text, so the namespaces of their maps and the digest are left out.
- Agreement.ResolverAgreesWithNginx: workspaces in which two owners share a pattern are excluded, because the renderer keeps the first location and the resolver the least owner; so are domains that two applications share, for which nginx gets two servers of one name.
