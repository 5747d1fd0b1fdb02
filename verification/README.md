# Verification of the boot protocols, the setup draft and the seeding cores

A Dafny model of the parts of the repository whose correctness spans several steps, and proofs of what they
promise. `dafny verify dfyconfig.toml` checks all of it.

| file | what it models |
|---|---|
| `GrantWalk.dfy` | the recursive query over role grants that refuses an app role able to reach a table owner, against a machine that can SET ROLE, GRANT and REVOKE |
| `ProvisionRole.dfy` | the transaction that provisions the app role, over many boots; what a failed run says it did |
| `RlsPosture.dfy` | planning and applying the cutover sweep, the binding gate, the posture probe |
| `SweepProtocol.dfy`, `SweepResults.dfy`, `SweepAssumptions.dfy` | any number of concurrent sweeps as a state machine, with the deadline, drops and kills between any two steps |
| `SweepCompletion.dfy` | the ends a sweep comes to when nobody else acts and nothing fails |
| `Migrate.dfy` | the migration runner, any number of replicas, crashes at any step |
| `TopupCap.dfy` | the per-project top-up cap under lagging clocks, with appends and edits |
| `OrgTree.dfy` | the manager tree of the setup page: ancestors, region roots, unit rows |
| `SaveUnits.dfy` | saving drafted units in dependency order against a server that may answer anything |
| `UnitDraft.dfy` | the drafted units around a save: edits during its requests and during the refresh, and when it says it is done |
| `Leaders.dfy` | saving region leaders over requests that may fail before or after taking effect |
| `PreviewDraft.dfy` | the debounced, token-guarded preview |
| `LinkAudit.dfy` | the publish transform of wiki links, and the link written to survive it |
| `SeedTree.dfy` | flattening unit definitions to rows with label paths; seeding a region once |
| `Residual.dfy` | the floor and descending-cap split of a day's residual |
| `Order.dfy` | the code-unit order the boot scripts sort names by |
| `Wrappers.dfy` | the option type and the names in a list |

Databases, servers and clocks are abstract: a state with atomic transactions, locks and rollback; an answer
that may depend on every call made so far; a number. Protocols are state machines whose steps any replica
or the environment may take in any order, and their results hold of every run. Code that updates things in
place is a class or a method whose contract ties the new state to a function of the old one, and the
promises are lemmas about that function.

## Assumptions the sweep's results rest on

The code relies on two facts it cannot check, and the model makes them parameters instead of hiding them:

- `rejectMeansRolledBack`: when `sql.begin` rejects, its transaction has been rolled back (`drizzle/cutover-rls-sweep.ts:497`).
- `lockOutlivesTx`: the advisory lock, which rides another connection, outlives the run's transaction.

`SweepAssumptions` proves that each is needed: exit 1 is honest exactly under the first, and commits raise
the ledger exactly under the second. The first is needed by the first
clause of `FlagsAreHonest` and by what `ExitCodesAreHonest` says of exit 1, the second by
`CommitsRaiseTheLedger` and `CommitsAreBounded`; each of these clauses names its assumption, and nothing else
about the sweep rests on either.
`drizzle/provision-app-role.ts:858-863` relies on the first fact too; there it is not assumed at all, and
what follows is under the last bullet below.

## Where the code does not meet a promise

In each case the model follows the code, the exact condition under which the promise holds is proved, and a
run or an input on which it fails is given.

- A committed sweep is not always free of hazards: a table bare-ENABLEd between the plan and the locks is neither a conflict nor planned, and only verification finds it (`CommitIsCleanIff`, `EnabledInTheWindow`).
- `server/utils/allocation-validation.ts:111-119` promises at most 50 top-ups that are live or recent. Appends keep it. An edit points its row at a new audit row, which makes an old row recent without counting it (`EditKeepsCapIff`, and over whole runs `CapHoldsIffEditsFit`; `EditCanBreakTheCap`); the live cap alone survives edits.
- `app/composables/useOrgSetupDraft.ts:48` says the preview flag is up from the moment a choice changes. On a page that is not active it is not, nor when the choice leaves the proposal as it was (`EditShowsIff`, `EditsThatDoNotShow`).
- `app/composables/useOrgSetupDraft.ts:175` says that saving units is done when every one was created, and the review step goes on that. Unticking a refused draft while the tree is refreshed clears its error, and the save is done without it, even when it is ticked again (`UnitDraft.Page.SaveUnits`, `DoneWithARefusedDraft`).
- A leader pick that drew no error leaves the draft. It is the server's state exactly when the tree was good enough for that pick (`SavedIsServed`, `StaleTreeLosesAPick`).
- The link written by the audit does not survive publishing when its path has leading white space, a title mark or a hash, or when the target is a neighbour with two dots in a row in its name (`SuggestionSurvivesIff`, `UncleanNamesFail`, `DottedNeighbourFails`).
- The line a failed provisioning run prints is false as it is printed when a COMMIT landed and its reply was lost (`SaidNothingAfterCommit`), against the claim at `drizzle/provision-app-role.ts:858-863`. Otherwise it is true as it is printed, but nothing stops the run while the exit path probes the credential, so it can be false by the exit (`LineIsTrueIff`, `SaidUntouchedThenSet`, `SaidNothingThenCommitted`).

## Model

| member | source | states |
|---|---|---|
| GrantWalk.Reachable | drizzle/provision-app-role.ts:588-603 | the deduplicating recursive union ends, and ends in a fixpoint of the recursive arm that contains the first arm |
| GrantWalk.WalkIsExact | drizzle/provision-app-role.ts:529-545 | for every grant graph, cycles included, a role is reached iff some run of SET ROLE, GRANT and REVOKE statements ends holding its privileges |
| GrantWalk.BecomeIsExact | drizzle/provision-app-role.ts:542-545 | the carried bit holds of some row of a role iff some run ends acting as that role |
| GrantWalk.RefusalIsExact | drizzle/provision-app-role.ts:611-635 | a table is reported iff the app role exists and some run ends holding the privileges of the table's owner, outright ownership included |
| GrantWalk.OptionlessNeverMatter | drizzle/provision-app-role.ts:531-536 | grants with none of the three options change nothing about the walk |
| GrantWalk.ReportIsExact | drizzle/provision-app-role.ts:588-626 | the report names an option for a role iff some chain of grants out of the app role that the walk can follow to that role uses the option |
| GrantWalk.BuySet | drizzle/provision-app-role.ts:537-540 | whoever holds a role with ADMIN on another can run to where it can SET ROLE to it, keeping every original grant |
| GrantWalk.AttainNext | drizzle/provision-app-role.ts:596-602 | soundness of one hop: what the recursive arm claims of the next role can be attained |
| GrantWalk.StepConfined | drizzle/provision-app-role.ts:529-545 | completeness of one statement: it never takes the session, or a grant, outside the rows the walk says can be become |
| ProvisionRole.Session.EnsureRole | drizzle/provision-app-role.ts:737-789 | the role statements run as the current actor only and leave the specified role; only a creation refused as a duplicate goes on to converge; the password flag is raised exactly when a run that set the password comes back |
| ProvisionRole.Session.Grant | drizzle/provision-app-role.ts:798-811 | the grants and the later revoke leave the specified privileges, all sent as one actor |
| ProvisionRole.Session.Commit | drizzle/provision-app-role.ts:715-876 | all or nothing; role statements run as the assumed role and every grant as the login; a report is returned only for a commit that landed and says truthfully whether the password was set; a rejection leaves the flags saying that nothing was committed, whether or not the commit had landed |
| ProvisionRole.RunLeaves | drizzle/provision-app-role.ts:715-811 | from any prior attributes a committed run leaves LOGIN, NOINHERIT, NOSUPERUSER, NOBYPASSRLS, moves the password iff it created the role or was asked to rotate, and as the owner's login leaves exactly the verbs due on every table |
| ProvisionRole.OrdinaryLoginConverges | drizzle/provision-app-role.ts:659-682 | one statement, by cases: a login without the attributes converges exactly the roles that do not carry them, and stating every negative would always be refused to it |
| ProvisionRole.PasswordMovesOnlyByRotation | drizzle/provision-app-role.ts:753-789 | one act, by cases: an existing role's password changes only in a committed boot with rotation on; PasswordStands is the same over every run |
| ProvisionRole.PasswordStands | drizzle/provision-app-role.ts:755-767 | over any boots with any secrets, committed or not, without rotation or a drop the password stands |
| ProvisionRole.WithoutPasswordUntil | drizzle/provision-app-role.ts:755-767 | over any acts: a role that has a password, or that a boot creates, is never left without; one made by hand without stays without exactly until a committed rotation or a drop |
| ProvisionRole.FutureTablesAreReached | drizzle/provision-app-role.ts:793-810 | later migrations by the same owner, and later boots, keep every table reachable with exactly the due verbs, and every sequence reachable |
| ProvisionRole.RunReachesAll | drizzle/provision-app-role.ts:793-811 | a committed run as the owner's login establishes that |
| ProvisionRole.FlagsAt | drizzle/provision-app-role.ts:770-788 | what the progress flags say at each point of every run, rejected runs whose commit landed included |
| ProvisionRole.LineIsTrueIff | drizzle/provision-app-role.ts:1106-1136 | the progress line is true when printed iff the run is not a rejected one whose commit landed; at the exit iff the run is not in the database after being last heard of before its transaction, rejected, or with an unanswered password statement |
| ProvisionRole.SaidUntouchedThenSet | drizzle/provision-app-role.ts:1127-1133 | the run on which the line says the password is what it was and the password is then set |
| ProvisionRole.SaidNothingThenCommitted | drizzle/provision-app-role.ts:1135 | the run on which the line says the transaction had not started and it then commits |
| ProvisionRole.SaidNothingAfterCommit | drizzle/provision-app-role.ts:858-875 | the run on which the line denies a commit that has landed |
| RlsPosture.PlanSweep | drizzle/cutover-rls-sweep.ts:317-330 | the loop computes the plan function, buckets and their order |
| RlsPosture.PlanMeaning | drizzle/cutover-rls-sweep.ts:295-330 | which tables each list of the plan holds, both directions; only ENABLEd and un-FORCEd tables are planned |
| RlsPosture.Targets | drizzle/cutover-rls-sweep.ts:356 | the locked tables are the planned and bootstrap ones, strictly ascending |
| RlsPosture.ConflictsUnderMeaning | drizzle/cutover-rls-sweep.ts:366 | the conflicts under the locks are exactly the phase-owned bootstrap targets |
| RlsPosture.SelectedMeaning | drizzle/cutover-rls-sweep.ts:371-380 | which planned tables are turned off and which are skipped as newly FORCEd, both directions |
| RlsPosture.LockTables | drizzle/cutover-rls-sweep.ts:360-362 | the targets are locked one by one in the given order, all of them, or up to the first missing one, which is named |
| RlsPosture.DisableUnforced | drizzle/cutover-rls-sweep.ts:369-381 | judges each planned table by the re-read, turns off exactly the un-FORCEd ones and reports both lists |
| RlsPosture.ApplySweep | drizzle/cutover-rls-sweep.ts:354-382 | refuses whole, naming exactly the bootstrap tables that are ENABLEd and FORCEd under the locks, iff there is one; otherwise disables exactly the planned, still un-FORCEd tables; locks in ascending order |
| RlsPosture.SweepAlone | drizzle/cutover-rls-sweep.ts:535-576 | with no concurrent change, a complete conflict-free posture ends with nothing for the gate to refuse; no FORCED flag and no phase-owned table changes |
| RlsPosture.SweptIsClean | drizzle/cutover-rls-sweep.ts:369-381 | the same of the specification, from every such posture |
| RlsPosture.BypassReasons | drizzle/rls-binding.ts:271-289 | each reason is given exactly when it holds |
| RlsPosture.GateMakesProbeExact | scripts/preflight-rls.ts:394-402 | on every posture the gate accepts, for a role with no bypass reason, policies apply iff ENABLEd and FORCEd, and to no bootstrap table |
| RlsPosture.GateIsExact | drizzle/rls-binding.ts:88-98 | the gate accepts exactly the postures on which only phase-owned, non-bootstrap tables filter a non-owner |
| RlsPosture.HazardsArePlanned | drizzle/rls-binding.ts:88-98 | on any posture the gate and the sweep agree: the unvetted tables are exactly those a plan would turn off, and an ENABLEd bootstrap table is one of them or a conflict |
| RlsPosture.ExemptionsAreExact | scripts/preflight-rls.ts:394-402 | a role escapes every table iff it is a superuser or has BYPASSRLS; else an owner is filtered iff FORCEd as well, anyone else iff ENABLEd |
| SweepProtocol.EventKeeps | drizzle/cutover-rls-sweep.ts:439-630 | every step of any replica or the environment, a reject with the COMMIT still in flight included, keeps the protocol's invariant |
| SweepProtocol.RunKeeps | drizzle/cutover-rls-sweep.ts:439-630 | the invariant holds at every point of every run |
| SweepProtocol.CommitRecordOk | drizzle/cutover-rls-sweep.ts:354-382 | what a commit may change, read off the replica's transaction |
| SweepResults.SweepsAreSafe | drizzle/cutover-rls-sweep.ts:354-382 | in every interleaving a commit only turns planned tables that are ENABLEd and un-FORCEd at that moment off, changes no FORCED flag and no phase-owned table, and never happens with a phase-owned bootstrap table |
| SweepResults.CommitIsCleanIff | drizzle/cutover-rls-sweep.ts:389-402 | a commit leaves the gate nothing to refuse iff every table un-FORCEd at the commit had been planned |
| SweepResults.FlagsAreHonest | drizzle/cutover-rls-sweep.ts:439-505 | landed implies writes issued or committed; verified implies committed; committed implies landed |
| SweepResults.ExitCodesAreHonest | drizzle/cutover-rls-sweep.ts:664-716 | with the deadline anywhere: exit 4, and exit 1 if a reject means rolled back, changed nothing and has no COMMIT in flight; exit 5 comes after a point at which the transaction had written its ledger row and altered every planned table still un-FORCEd; exit 0 wrote nothing, or committed and verified |
| SweepResults.IssuedWroteEverything | drizzle/cutover-rls-sweep.ts:477-492 | whenever the writes-issued flag is up, this run's transaction had written everything at an earlier point |
| SweepResults.ExitIsFinal | drizzle/cutover-rls-sweep.ts:671-716 | no later step changes an exit code |
| SweepResults.ConflictExitsFour | drizzle/cutover-rls-sweep.ts:674 | at every point of every run, a run exits 4 exactly when it finishes unwinding from a conflict |
| SweepResults.ConflictsAreSeen | drizzle/cutover-rls-sweep.ts:366-574 | a run goes into a conflict only on seeing an ENABLEd and FORCEd bootstrap table, in a plan it is about to carry out or under its locks |
| SweepResults.VerifiedReadWasClean | drizzle/cutover-rls-sweep.ts:389-406 | a verified run read a hazard-free catalog after its own commit |
| SweepResults.LedgerNeverGoesBack | drizzle/cutover-rls-sweep.ts:475-483 | the ledger is monotone across mixed image versions, lock kept or not |
| SweepResults.CommitsRaiseTheLedger | drizzle/cutover-rls-sweep.ts:547-576 | with the lock outliving its transaction, commits are chained by strictly rising ledger values |
| SweepResults.CommitsAreBounded | drizzle/cutover-rls-sweep.ts:547-576 | hence at most as many commits as the highest version, each stamping its own version |
| SweepResults.CurrentRunsChangeNothing | drizzle/cutover-rls-sweep.ts:549-572 | a run that finds the ledger current never opens a transaction, then or later |
| SweepResults.WaitsAscend | drizzle/cutover-rls-sweep.ts:355-362 | along a wait the next table needed only grows in the sort order |
| SweepResults.NoWaitCycle | drizzle/cutover-rls-sweep.ts:357-359 | the wait-for graph of any set of sweeps is acyclic, without relying on the advisory lock |
| SweepResults.SomeSweepCanProceed | drizzle/cutover-rls-sweep.ts:357-359 | when any sweep is open, some open sweep is blocked by nobody |
| SweepAssumptions.ExitOneIsHonestIff | drizzle/cutover-rls-sweep.ts:495-504 | "nothing was committed" on exit 1 is true of every run iff a reject means rolled back |
| SweepAssumptions.CommittedThenRejected | drizzle/cutover-rls-sweep.ts:495-504 | the run that breaks it: the reply to a landed COMMIT is lost |
| SweepAssumptions.CommitsRaiseIff | drizzle/cutover-rls-sweep.ts:519-549 | every commit raises the ledger iff the advisory lock outlives its transaction |
| SweepAssumptions.SameVersionTwice | drizzle/cutover-rls-sweep.ts:519-549 | the run on which one version commits twice after the lock is lost |
| SweepAssumptions.EnabledInTheWindow | drizzle/cutover-rls-sweep.ts:364-367 | for each bootstrap table, the run on which it is ENABLEd between plan and locks and the sweep commits beside it |
| SweepCompletion.SweepSucceeds | drizzle/cutover-rls-sweep.ts:535-592 | from any reachable state at rest whose ledger is behind and whose bootstrap tables are there and owned by no phase, the sweep can run to exit 0, committed and verified, with exactly the un-FORCEd tables off, no hazard left and the ledger at its own version |
| SweepCompletion.CurrentSweepEnds | drizzle/cutover-rls-sweep.ts:549-572 | from such a state with the ledger current it can run to exit 0 with nothing changed, conflicts or not |
| SweepCompletion.ConflictedSweepEnds | drizzle/cutover-rls-sweep.ts:574-674 | with the ledger behind and a bootstrap table owned by a phase it can run to exit 4 with nothing changed |
| SweepCompletion.SweepWithoutBootstrapEnds | drizzle/cutover-rls-sweep.ts:535-544 | with a bootstrap table missing it can run to exit 1 with nothing changed |
| Migrate.MigrationsAreExact | drizzle/migrate.ts:47-87 | with any replicas, images, lock timeouts and crashes: the schema is the replay of the record, no name is recorded twice, each run's own are in lexical order, and success leaves all its files recorded |
| Migrate.RecordOnlyGrows | drizzle/migrate.ts:74-78 | the record is only ever extended |
| Migrate.KeptLockMeansNoClash | drizzle/migrate.ts:48-50 | while every run keeps its lock, none tries a name already recorded |
| Migrate.FailsOnlyWhen | drizzle/migrate.ts:66-85 | what can make a run fail: its own crash, an unheard commit, a failed statement, or a lock timeout on the sixth attempt; never a recorded file or another run |
| Migrate.Run | drizzle/migrate.ts:59-87 | one run's loops, against any outcomes: records the files it found unrecorded, in order, each under its own body, up to the first that does not come to a commit; succeeds iff there is none; keeps schema equal to replay and leaves all files recorded when it succeeds |
| Migrate.SucceedsIff | drizzle/migrate.ts:65-87 | hence a run succeeds exactly when every unrecorded file comes to a commit within its attempts, and otherwise stops right before the first that does not |
| Migrate.UnrecordedHas | drizzle/migrate.ts:61-66 | the files a run has to apply are those of its image that are not recorded |
| Migrate.CommitsWithinSix | drizzle/migrate.ts:72-85 | a file comes to a commit iff one of its first six transactions commits and those before it all timed out on a lock |
| Migrate.Attempts | drizzle/migrate.ts:72-85 | only lock timeouts are retried, at most six attempts in all |
| TopupCap.Project.AppendTopup | server/allocations/append-topup.ts:42-122 | the body is the protocol's count and commit: the row is written exactly when the protocol admits the append, and nothing otherwise |
| TopupCap.CapHoldsForAppends | server/allocations/append-topup.ts:46-65 | in every interleaving of appends with lagging clocks and transaction starts, live-or-recent top-ups never exceed the cap at any real time |
| TopupCap.LiveCapHoldsWithEdits | server/api/v1/allocations/[id].patch.ts:121-143 | with edits in the mix, live top-ups alone never exceed it |
| TopupCap.EditKeepsCapIff | server/api/v1/allocations/[id].patch.ts:145-181 | an edit keeps the live-or-recent cap exactly when, before it commits, its row counts already, or its new range has ended and its transaction is no longer recent, or there is room |
| TopupCap.CapHoldsIffEditsFit | server/api/v1/allocations/[id].patch.ts:121-181 | in every run of appends and edits the cap holds at every point iff every edit met that condition as it was committed |
| TopupCap.EditCanBreakTheCap | server/api/v1/allocations/[id].patch.ts:145-181 | a reachable state one over the live-or-recent cap |
| TopupCap.LockIsHeldExactly | server/allocations/append-topup.ts:42-65 | at every point of every run the project's lock is held exactly by the request that took it and has not ended |
| TopupCap.EditIsNotItsOwnRival | server/api/v1/allocations/[id].patch.ts:129-143 | an edit that keeps its live row live is admitted up to a full cap, one that makes its row live only while there is room |
| OrgTree.Ancestors | app/utils/org-setup-view.ts:53-65 | the guarded loop ends on any manager graph and computes the ancestor function |
| OrgTree.AncestorsMeaning | app/utils/org-setup-view.ts:52-65 | the ancestors are the successive managers, each once, never the node itself, and they go on until the next one is none, unknown, the node or listed |
| OrgTree.RootsAmong | app/utils/org-setup-view.ts:143-150 | exactly the region's leaders with no leader of the region above them |
| OrgTree.UnitRows | app/utils/org-setup-view.ts:158-178 | ends on any manager graph, lists each node at most once, only nodes on a branch of that depth under a root, depth first so that each row reads as below its manager's, and with unique ids every such node |
| OrgTree.NoNodeInTwoRegions | app/utils/org-setup-view.ts:157-178 | no node is listed under two regions |
| OrgTree.BranchEndsUnderRegion | app/utils/org-setup-view.ts:157-178 | the nearest leader at or above every listed node leads that region |
| SaveUnits.NestUnder | app/utils/org-setup-view.ts:201-209 | the loop returns the parent of the nearest manager that settles one |
| SaveUnits.NestsUnderNearest | app/utils/org-setup-view.ts:200-209 | a unit nests under the nearest manager who has one drafted or owns one in its region, the drafted one before the first owned one, and under nothing when no manager does |
| SaveUnits.Sort | app/utils/org-setup-view.ts:230-240 | one round partitions the pending drafts into sendable, waiting and refused, with the right parent ids, and changes no other result |
| SaveUnits.Note | app/utils/org-setup-view.ts:248-251 | what noting an arbitrary answer does to the results and to the created units |
| SaveUnits.PostAll | app/utils/org-setup-view.ts:246-252 | a round's calls are its items in order, each call full but the last, each item once under a created or existing parent; it stops at a call that throws and only there, and everything that every answered call said, of this round and those before, is still held then |
| SaveUnits.SaveDraftUnits | app/utils/org-setup-view.ts:220-259 | ends against any server; each draft is posted at most once and only under the unit it nests under; thrown or not, each result an answered call gave is held, and each unit it created, with an honest server exactly as said; with an honest server and no throw every draft has exactly one result, the server's when posted and a refusal otherwise, and is posted iff its parent exists |
| SaveUnits.CirclesAreRefused | app/utils/org-setup-view.ts:241-245 | drafts that nest under one another in a circle are never sent and are all refused |
| SaveUnits.ParentIsDrafted | app/utils/org-setup-view.ts:203-204 | a drafted parent is itself one of the drafts |
| UnitDraft.Page.SaveUnits | app/composables/useOrgSetupDraft.ts:176-226 | with edits during the requests and during the refresh: what is left of the drafts and of the errors, which unit ids are remembered, and that the save says it is done exactly when no call threw and each refused draft was unticked during the refresh or is owned after it; with an honest server, exactly when no call threw and each draft sent was created or so excused; a refresh that throws leaves no result and looks nothing up |
| UnitDraft.Page.DoAll | app/composables/useOrgSetupDraft.ts:100-110 | a run of edits leaves the drafts edited in order and clears the error of each draft that was unticked |
| UnitDraft.LeavesOnlyWhen | app/composables/useOrgSetupDraft.ts:193-213 | a draft leaves only when it is unticked, created, or found owned in its region after the refresh |
| UnitDraft.DoneWithARefusedDraft | app/composables/useOrgSetupDraft.ts:103-106 | a save that says it is done with its only draft refused, not owned, and even still ticked |
| Leaders.ProposedLeaders | app/utils/org-setup-view.ts:80-88 | exactly the known picks that differ from the tree, each once |
| Leaders.LeaderDiff | app/utils/org-setup-view.ts:91-101 | revokes exactly the changed saved leaders and assigns exactly the changed picks that name a region |
| Leaders.RevokeOne | app/composables/useOrgSetupDraft.ts:129-141 | one revoke with its cached list touches only its person, is in error exactly when one of its own requests was not served, removes them from the region otherwise, and keeps the cached lists right for those still to come |
| Leaders.RevokeAll | app/composables/useOrgSetupDraft.ts:127-141 | what every person's state is after the revokes, whatever failed before or after taking effect, and that each is in error exactly when one of its own requests failed |
| Leaders.AssignAll | app/composables/useOrgSetupDraft.ts:142-156 | the same after the assigns: exactly those with an email and no failed revoke are posted, in order; everyone else to be assigned is an error and stays as they were; of those posted, exactly those are without an error whose request was served and who led nothing |
| Leaders.SavedIsServed | app/composables/useOrgSetupDraft.ts:157-163 | a submitted pick without error is the server's state iff the tree was good enough for it |
| Leaders.OthersUntouched | app/composables/useOrgSetupDraft.ts:129-156 | a step of SaveOutcome: people without a changed pick keep their state |
| Leaders.SaveOutcome | app/composables/useOrgSetupDraft.ts:157-164 | no edit is lost, others are untouched, and without errors every accurate node ends with its effective leader region |
| Leaders.WhatWasSent | app/composables/useOrgSetupDraft.ts:142-156 | only changed picks that name a region for someone with an email are posted, each once, all of those without an error among them; a changed pick for someone without an email is an error |
| Leaders.WhenAllAreServed | app/composables/useOrgSetupDraft.ts:127-156 | when every request is served, exactly those draw an error who are to lead a region and have no email or lead one that the tree does not show |
| Leaders.Draft.SaveLeaders | app/composables/useOrgSetupDraft.ts:120-173 | the whole save with edits and failures during it: a pick leaves the draft exactly when it reads as it was sent and drew no error, and is then the server's on an accurate tree; the two lemmas above hold of what it posts and of its errors; a changed pick to make someone without an email a leader is not posted, stays in the draft and leaves the save not done; when done, everyone shown accurately has their effective leader region |
| Leaders.StaleTreeLosesAPick | app/composables/useOrgSetupDraft.ts:135-163 | a save on a stale tree that drops a pick without an error and without effect |
| PreviewDraft.Page.RequestPreview | app/composables/useOrgSetupDraft.ts:56-59 | the flag is up and the timer armed, whatever was armed before |
| PreviewDraft.Page.TimerFired | app/composables/useOrgSetupDraft.ts:59-66 | a new token is sent with the proposal as it now reads |
| PreviewDraft.Page.Replied | app/composables/useOrgSetupDraft.ts:67-75 | only the latest token's reply lands, with its content, and the flag falls only when no timer is set |
| PreviewDraft.Page.Unmounted | app/composables/useOrgSetupDraft.ts:88-91 | the timer is cleared and every request in flight is outdated |
| PreviewDraft.RunKeeps | app/composables/useOrgSetupDraft.ts:47-91 | the page's invariant over every run of edits, timers, replies, activation and unmounting |
| PreviewDraft.PreviewIsFresh | app/composables/useOrgSetupDraft.ts:47-91 | over the events of every run: whatever is shown is the content some request of the run was answered with; previewing iff a timer is armed or the latest request is out; active and not previewing, the page shows what the latest request came back with, content or error, and that request carried the proposal as it now reads |
| PreviewDraft.AskedIsAnswered | app/composables/useOrgSetupDraft.ts:56-95 | what is then shown came back of a request sent after the last refresh, save, opening of a step or change of the proposal |
| PreviewDraft.CanSettle | app/composables/useOrgSetupDraft.ts:56-77 | a previewing page is settled by at most one timer firing and one answer, and then shows that answer |
| PreviewDraft.EditShowsIff | app/composables/useOrgSetupDraft.ts:79-87 | the exact condition of a promise that fails: a choice shows as previewing iff the page was previewing already, or is active and the proposal's text changes |
| PreviewDraft.EditsThatDoNotShow | app/composables/useOrgSetupDraft.ts:48-49 | a changed proposal on an inactive page, and a choice that leaves the proposal as it was, do not show |
| PreviewDraft.NothingLandsAfterUnmount | app/composables/useOrgSetupDraft.ts:88-91 | after unmounting, nothing lands unless something asks again |
| LinkAudit.TransformLink | scripts/wiki-tools/link-audit.py:86-137 | the assignments and the prefix loop compute the transform function |
| LinkAudit.AllIn | scripts/wiki-tools/link-audit.py:121-127 | whatever other prefixes the loop visits, a path into one directory is flattened by its own prefix only |
| LinkAudit.AllUpIn | scripts/wiki-tools/link-audit.py:121-127 | the same of a path that goes up first |
| LinkAudit.AnchorIsClean | scripts/wiki-tools/link-audit.py:92-102 | an anchor read from a link has no title in it and no white space at its end |
| LinkAudit.AnchorOnly | scripts/wiki-tools/link-audit.py:92-97 | a link has no path iff it starts with a hash, and its anchor is then the rest past every leading hash |
| LinkAudit.ReadsBack | scripts/wiki-tools/link-audit.py:92-102 | exactly which piece of a written path the transform reads back, and that it is all of it when the path is clean |
| LinkAudit.WholePublishes | scripts/wiki-tools/link-audit.py:104-137 | read whole, the written path becomes the target's flat name iff it is no neighbour with two dots in a row |
| LinkAudit.DamagedDiffers | scripts/wiki-tools/link-audit.py:86-137 | a damaged path never becomes the target's flat name |
| LinkAudit.SuggestionSurvivesIff | scripts/wiki-tools/link-audit.py:259-279 | exactly when the written link publishes to the target's flat name with the original anchor, for every source, target, anchor and prefix list |
| LinkAudit.FixIsRight | scripts/wiki-tools/link-audit.py:193-289 | a fix carries a broken link's anchor to a link that is right |
| LinkAudit.DottedNeighbourFails | scripts/wiki-tools/link-audit.py:112-117 | a concrete neighbour whose link does not survive |
| LinkAudit.UncleanNamesFail | scripts/wiki-tools/link-audit.py:92-102 | concrete names with white space in front, a title mark and a hash whose links do not survive |
| SeedTree.RowsAreCounted | drizzle/seed-org-structure.ts:149 | the rows of a forest are as many as its count, with consecutive ids |
| SeedTree.RowsDescribeUnits | drizzle/seed-org-structure.ts:119-129 | the rows of a forest are its units, each before those below it, with code, name and label, a default type, and by default cost-owning iff a leaf |
| SeedTree.LabelsAreSafe | drizzle/seed-org-structure.ts:105-107 | a label has only characters a path may have, one per character of the code, and is the code itself iff that has only those |
| SeedTree.RowsAreATree | drizzle/seed-org-structure.ts:119-129 | every row hangs off the root or an earlier row, its path one label longer, siblings apart |
| SeedTree.PathsUnique | drizzle/seed-org-structure.ts:119-129 | in such rows no two units, the root included, share a path |
| SeedTree.PathsUniqueIff | drizzle/seed-org-structure.ts:105-129 | a forest's paths are distinct iff its siblings' labels are |
| SeedTree.PrefixIffAbove | drizzle/seed-org-structure.ts:119-129 | in such rows one path starts another iff the units are the same or ancestor and descendant by parent id |
| SeedTree.FlatteningKeepsAncestry | drizzle/seed-org-structure.ts:119-129 | the same for the rows of every forest with sibling-distinct labels, the default unit included |
| SeedTree.Region.InsertUnit | drizzle/seed-org-structure.ts:119-129 | the recursion inserts exactly a unit's rows, and fails iff a code is empty or taken or the parent's path has no labels |
| SeedTree.Region.SeedRegion | drizzle/seed-org-structure.ts:150-184 | one region's transaction is the seed function; a failure leaves the region as it was |
| SeedTree.SeededRegion | drizzle/seed-org-structure.ts:182-187 | a seeded region keeps its rows and gains exactly the counted rows under an un-retired default unit, as a tree |
| SeedTree.SeedsExactlyWhen | drizzle/seed-org-structure.ts:150-184 | which of the four outcomes a region has, by its default unit, its other rows and the rows to go in; and what its default unit is when it had none |
| SeedTree.RerunAddsNothingIff | drizzle/seed-org-structure.ts:171-183 | after a run that did not fail, another run with any definition changes nothing, except exactly when the first seeded a definition without units and the second has units that can go in |
| SeedTree.RerunAddsAUnit | drizzle/seed-org-structure.ts:171-183 | such a pair of runs |
| SeedTree.SetUpIsLeftAlone | drizzle/seed-org-structure.ts:19-26 | a region that is set up is unchanged iff its default unit is there; otherwise it gains exactly that |
| SeedTree.SetUpGainsItsDefault | drizzle/seed-org-structure.ts:160-164 | such a region, made by hand without a default unit |
| Residual.Split | scripts/seed-reporting-fixture.ts:1916-1925 | the two loops compute the children function |
| Residual.ChildrenFoot | scripts/seed-reporting-fixture.ts:1916-1925 | the children add up to exactly the larger of zero and the day's excess |
| Residual.ChildrenAreCapped | drizzle/schema/unaccounted.ts:101-107 | of the cells alone: each child is of a model billed above what was observed, positive and at most the difference; only the last may be less; no model has two; and a model with more above is served first, so none without a child has more above than one with |
| Residual.OrderDoesNotMatter | scripts/seed-reporting-fixture.ts:1911-1914 | the same cells in another order split the same way |
| Residual.DriftDay | scripts/seed-reporting-fixture.ts:174-190 | the handcrafted day gives 16 and 2, and nothing to the model observed above its bill |

## Left out

- SQL text, SCRAM, TLS, pools, log and recovery wording: not state.
- Real time: deadlines, lock waits and retries are steps that may happen, and the budgets are tuning.
- GrantWalk.RefusalIsExact: does not model `LIMIT 5`, how the option labels are joined into one text, or a superuser owner (to whom ADMIN does not help), and lets a session grant in a circle, which PostgreSQL refuses; a circle adds nothing that can be reached.
- GrantWalk.WalkIsExact: covers runs of the app role's own session over a fixed set of other sessions' grants.
- ProvisionRole.Session.Commit: how the assumed role is chosen, the advisory lock, the read-back and the exit-code classification after it are not modelled; a statement may fail at any point for any reason, and the reply to a commit may be lost.
- ProvisionRole.RunLeaves: privileges are per table and verb; sequences and the schema are one flag each, and column grants do not occur.
- SweepAssumptions.ExitOneIsHonestIff: an axiom of the code made a parameter, see above.
- SweepProtocol.RunKeeps: one transaction per run; the dormant path, a missing URL and the reporting lines are left out.
- Migrate.MigrationsAreExact: a body is one state change; statements that cannot run in a transaction are left out.
- TopupCap.CapHoldsForAppends: one project, amounts left out, and ranges have an upper bound, as both routes demand.
- OrgTree.UnitRows: sorting by users and label is any arrangement of the same nodes, since locale comparison is not modelled; the order among one manager's reports is therefore not stated.
- OrgTree.NoNodeInTwoRegions: assumes unique ids; full coverage is not claimed, since a leader below another region's leader is in no list.
- SaveUnits.SaveDraftUnits: item details other than owner, name, region, parent and reason are left out, and the order in which drafts are sent within a round is arbitrary.
- Leaders.Draft.SaveLeaders: nobody else changes leaders during the save, a region always exists, and a refresh that throws, which changes none of this state, is not modelled; ids are compared as sent.
- PreviewDraft.PreviewIsFresh: the watchers fire with the change that triggers them.
- LinkAudit.SuggestionSurvivesIff: directory names with a backslash, which the substitution templates would interpret, and finding the link again in its file by the link pattern are left out.
- SeedTree.Region.SeedRegion: the version guard, the stamp and the region filter are single branches; lower-casing is modelled for ASCII, and ltree's length limit is left out.
- Residual.ChildrenFoot: amounts are reals, rounding is left out, and model names are compared by any strict total order.
- `identityMismatch`, `abortReason`, `isSweepConflict`, `classifyProbe`: single-branch tables.
- The rest of the setup page, the fixture generators, workers, schemas and clients: interface, invented data or plumbing.
