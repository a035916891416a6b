# The browser host and the protocols around it

This project models the main-process browser host of the Amber desktop app, the two durable files
it keeps, and the stream and request protocols at its edges, and proves what they promise over
whole runs.

| part | files |
|---|---|
| bounded set of live renderers, waiting and rollback | `Capacity`, `CapacityProofs`, `CapacityLaws`, `TabBrowserPolicy` |
| page lifecycle, generations and leases | `Host`, `HostProofs`, `HostFencing`, `HostOverflow`, `HostTheorems`, `HostLaws`, `HostTables`, `HostSeen`, `HostCalls`, `TabBrowserHost` |
| two-file journalled commit and its recovery | `BrowserState`, `Journal`, `JournalProofs`, `JournalRuns`, `TabBrowserMigrationCoordinator` |
| command queue of one browser | `Queue`, `QueueProofs`, `QueueLaws`, `TabBrowserService` |
| three-way merge of the host's snapshot | `Merge`, `MergeProofs`, `RuntimeDelta` |
| terminal replay and reconnection | `Stream`, `StreamProofs`, `StreamHoles`, `Router`, `Link`, `LinkProofs`, `LinkLaws`, `Connection` |
| layout lock and compare-and-swap | `LayoutLock`, `LayoutLockProofs`, `LockRecord` |
| DOM parent index | `Dom`, `DomProofs`, `BrowserDomRelations` |
| console and network ring | `Ring`, `RingLaws`, `BoundedRing` |
| input gestures under failure | `Interaction`, `InteractionProofs`, `InteractionLaws`, `BrowserAutomation` |
| visible points of a quad | `Geometry`, `GeometryLaws`, `BrowserGeometry` |
| request admission and frames | `Broker`, `BrokerProofs`, `BrokerLaws`, `TabBrowserBroker`, `Frames`, `FrameDecoder` |

A part that works by changing things has a specification on values (`Capacity`, `Host`, `Journal`,
...), a class with the source's fields and methods that is proved to follow it, and lemmas about the
specification. A module named `...Laws` says what each event does, in terms of the event and of what can
be observed, and not of the function that carries it out. Asynchronous code is cut at its awaits: one stretch is one step, and any other step
may come between two of them. `Runs` holds the induction over sequences of steps once for all,
`Sequences`, `Sets` and `Wrappers` stock definitions.

## Where the code keeps its promise only under a condition

Each condition is one a caller can check before the call, and each is proved to be exact: what
follows stays right if it holds, and a run that goes wrong is given if it does not.

- At most `maxLive` pages. Two places in the code exceed it. A browser may be closed or frozen
  between the grant of its activation and the resumption that uses the grant: a close is harmful
  while the grant still owes its place to an unfrozen victim, a freeze always, also when another
  resumption freezes it as its victim. And `open` keeps the page in its table when `page.show()` or a
  `hide()` throws, although it gives the place back and deletes the record, so the page can no longer
  be closed (`HostTheorems.BoundExact`, `HostOverflow.Overflows`). A close of a browser that was given
  a free place is harmless.
- A shown page stays. A grant names its victim, and the resumption freezes that browser whatever has
  become of it: where the victim crashed by itself in the meantime, and has been opened and shown again,
  the shown page is taken (`HostCalls.TakesShownExactly`, `HostCalls.CrashReopens`,
  `HostCalls.StaleGrantTakesShown`). A victim that is shown between the grant and its use is shown
  without protection, because its place is gone (`HostSeen.SeenExactly`).
- A browser closed before its grant is used leaks a page object, which `makeRuntime` creates before
  it looks the record up (`HostTheorems.LeakExact`).
- The two-file commit. The journal entry holds both whole layouts, and a state file over 8 MiB is
  read back as the empty state; the parser also drops an entry whose target is longer than 2 MiB, and
  recovery checks the target more strictly than the commit does. The comment above
  `coordinateTabBrowserMigration` promises the replay without these conditions
  (`JournalProofs.CrashAtomicExactly`, in plain words `JournalProofs.OrdinaryCommit`).
- A save of the layout that fails after the rename makes the commit roll the state back beside the
  new layout: no commit that changes the layout is safe then (`JournalProofs.OrdinaryCommit`). A save
  of the host's state that fails there is forgotten, and what a later snapshot does to the file is
  decided record by record (`MergeProofs.AfterLostSave`).
- Terminal replay. The router's watermark moves at the announcement of a replay, not at its arrival,
  and it outlives its terminal. So a drop is harmful where the stored watermark is not the end of what
  the terminal shows, and a mount where an old watermark will be presented for the new terminal: the
  fresh attach of a mount is not sent while the socket is down, and while it is connecting a second
  attach follows. The comment in `attach` promises a full replay for a new terminal
  (`StreamHoles.ConditionsExact`).
- The lock's comparison and its unlink are two steps. An unlink that hits the lock of a living process
  lets two processes in (`LayoutLockProofs.ExclusionExactly`); it loses an update unless that process
  has saved and not yet begun to release (`LayoutLockProofs.SavesExactly`). The common case is two
  reclaimers of one dead lock (`LayoutLockProofs.TwoReclaimersLoseAnUpdate`); one at a time is enough
  (`LayoutLockProofs.CareSuffices`).
- The key of a cached result joins two free strings with a colon, and the digest does not cover the
  client (`BrokerProofs.KeySharedExactly`, `BrokerProofs.SharedKeyReplays`).

## Model

| member | source | states |
|---|---|---|
| `CapacityProofs.VictimUnique` | app/src/main/tabBrowserPolicy.ts:136-138 | the order by (last use, id) has one least unprotected entry, so the victim is determined |
| `CapacityProofs.VictimExists` | app/src/main/tabBrowserPolicy.ts:136-138 | there is a victim exactly when some live entry is unprotected; a protected entry is never chosen |
| `CapacityProofs.DrainRestores` | app/src/main/tabBrowserPolicy.ts:154-162 | after an event that freed at most one place, one drain, which serves at most one waiter, is enough: nobody waits beside a free place or an unprotected entry |
| `CapacityProofs.StepKeeps` | app/src/main/tabBrowserPolicy.ts:72-143 | every call a caller may make keeps the bound, the queue and its index, the order of service, work conservation and the debts of open admissions |
| `CapacityProofs.RunKeeps` | app/src/main/tabBrowserPolicy.ts:66-163 | the same after every run of allowed calls from the empty capacity |
| `CapacityProofs.NoOvertaking` | app/src/main/tabBrowserPolicy.ts:113-132 | while anyone waits, an event brings in nobody but the head of the queue, apart from a victim whose eviction is rolled back |
| `CapacityProofs.ServedInOrder` | app/src/main/tabBrowserPolicy.ts:154-162 | over every run, promises are served in the order in which they were made, and whoever still waits comes after all who were served |
| `CapacityProofs.HeadIsServed` | app/src/main/tabBrowserPolicy.ts:154-162 | an event serves nobody, or the one at the head of the queue |
| `CapacityProofs.RollbackUndoes` | app/src/main/tabBrowserPolicy.ts:104-111 | admit and roll back with nothing in between: the live map is exactly what it was, for a newly inserted id |
| `CapacityProofs.FrozenIsGone` | app/src/main/tabBrowserPolicy.ts:73-80 | after a freeze of an id that does not wait, no admission can bring it back |
| `CapacityProofs.GoneStays` | app/src/main/tabBrowserPolicy.ts:104-111 | and so it stays over any event but its own new activation: no rollback revives a victim that froze, closed or crashed in between |
| `CapacityProofs.FreezeExact` | app/src/main/tabBrowserPolicy.ts:73-80 | freezing an id keeps the invariant if and only if that id does not still hold an unfrozen victim |
| `CapacityProofs.FreezeOfHolderOverflows` | app/src/main/tabBrowserPolicy.ts:73-80 | otherwise: for every capacity of at least one, a run that ends with more live entries than allowed once the victim is restored |
| `CapacityLaws.LiveLaw` | app/src/main/tabBrowserPolicy.ts:72-162 | whatever is called, a live browser keeps every reason that this call does not lift and gains the one it gives, carries the time of the last call that used it, and goes only if it is removed, or if nothing protects it, no other unprotected one has been used less recently, and another comes in |
| `CapacityLaws.ProtectedStays` | app/src/main/tabBrowserPolicy.ts:82-88 | over every run, while a reason stands the browser stays, is no victim of any admission, and its reasons and time of last use are exactly what the calls have made of them |
| `CapacityLaws.ProtectionHolds` | app/src/main/tabBrowserPolicy.ts:82-88 | and so it is from the call that gives the reason, until that reason is lifted, the page is frozen, or its own insertion is undone |
| `CapacityLaws.RemovedLaw` | app/src/main/tabBrowserPolicy.ts:73-80 | a browser whose page is frozen, or whose insertion is undone, is not live |
| `CapacityLaws.NewcomerLaw` | app/src/main/tabBrowserPolicy.ts:133-162 | nobody comes in but the one who asks, with the time of asking, the head of the queue with his, and a victim that is given back as it was |
| `CapacityLaws.AnswerLaw` | app/src/main/tabBrowserPolicy.ts:113-132 | who asks is granted a place at once unless all are taken by protected browsers; then he shares the promise he waits for, or is refused because too many wait, or waits behind all others |
| `CapacityLaws.AnsweredOnce` | app/src/main/tabBrowserPolicy.ts:143-162 | over every run, allowed or not, a promise that has been answered is never answered otherwise |
| `CapacityLaws.RejectLaw` | app/src/main/tabBrowserPolicy.ts:143-152 | who stops waiting is told why, and no one else leaves the queue |
| `CapacityLaws.CancelLaw` | app/src/main/tabBrowserPolicy.ts:102 | a cancelled browser does not wait any more |
| `CapacityLaws.AdmissionLaw` | app/src/main/tabBrowserPolicy.ts:73-112 | an admission is forgotten when it is settled or undone, and otherwise stays as recorded, but for the mark that its victim is frozen |
| `TabBrowserPolicy.BrowserCapacity.MarkFrozen` | app/src/main/tabBrowserPolicy.ts:73-80 | removes the entry, marks every admission that waits for it, and drains: the specified new state |
| `TabBrowserPolicy.BrowserCapacity.ProtectFor` | app/src/main/tabBrowserPolicy.ts:82-88 | adds or drops the named reason, and drains on a drop; what a reason does is `CapacityLaws.ProtectionHolds` |
| `TabBrowserPolicy.BrowserCapacity.ActivateQueued` | app/src/main/tabBrowserPolicy.ts:113-132 | grants, queues, shares a pending promise or refuses, as specified |
| `TabBrowserPolicy.BrowserCapacity.SelectVictim` | app/src/main/tabBrowserPolicy.ts:136-138 | the loop finds the victim that the specification determines |
| `TabBrowserPolicy.BrowserCapacity.Admit` | app/src/main/tabBrowserPolicy.ts:133-143 | touch, insert or replace the victim, and record which of these it was |
| `TabBrowserPolicy.BrowserCapacity.RollbackActivation` | app/src/main/tabBrowserPolicy.ts:104-111 | undo the insertion and give the place back unless the victim is frozen |
| `TabBrowserPolicy.BrowserCapacity.Drain` | app/src/main/tabBrowserPolicy.ts:154-162 | serves at most the head of the queue |
| `TabBrowserPolicy.BrowserCapacity.Perform` | app/src/main/tabBrowserPolicy.ts:66-163 | whatever is called takes the specified step, and keeps the invariant if a caller may call it |
| `HostProofs.StepLinks` | app/src/main/tabBrowserHost.ts:101-223 | every stretch between two awaits keeps the host and its capacity linked: each page is live, or is the unfrozen victim of one open admission whose candidate has no page yet |
| `HostTheorems.VictimsInject` | app/src/main/tabBrowserHost.ts:185-208 | distinct victims are owed by distinct candidates |
| `HostTheorems.PagesWithinLive` | app/src/main/tabBrowserHost.ts:69-70 | so pages never outnumber live entries, although a victim keeps its page for a while |
| `HostTheorems.AtMostMaxLivePages` | app/src/main/tabBrowserHost.ts:101-223 | in every state reached by harmless stretches there are at most `maxLive` pages (four in the source), each live or owed by exactly one open admission |
| `HostTheorems.BoundExact` | app/src/main/tabBrowserHost.ts:185-223 | from every state of the invariant, a stretch leaves the page bound kept over all that may follow if and only if it is harmless: it closes no browser whose grant still owes its place to an unfrozen victim, freezes none with an unused grant, by itself or as a victim, and no page call of an opening throws |
| `HostTheorems.LeakExact` | app/src/main/tabBrowserHost.ts:101-113 | a page object leaks exactly when an activation goes on for a browser closed in the meantime, because it is made before the record is looked up |
| `HostOverflow.Overflows` | app/src/main/tabBrowserHost.ts:632-638 | the run behind it: whoever waits gives up, whoever else holds a grant fails, new browsers fill the room, and the page or the grant that was left makes one page too many |
| `HostOverflow.LosePlace` | app/src/main/tabBrowserHost.ts:493-504 | a granted browser that is frozen or closed: the host goes on as if it did not exist, but its grant stays |
| `HostOverflow.ShowLoses` | app/src/main/tabBrowserHost.ts:199-209 | a page call that throws while opening: all is undone except that the page stays in the table |
| `HostFencing.StepAdvances` | app/src/main/tabBrowserHost.ts:125-179 | no stretch lowers the generation that any browser reports, and one that takes a page away raises it |
| `HostFencing.RunAdvances` | app/src/main/tabBrowserHost.ts:71-72 | until a browser is closed its reported generation never decreases over a run, and is strictly higher once its page is gone |
| `HostFencing.AlwaysFenced` | app/src/main/tabBrowserHost.ts:125-179 | from the empty host, over every run in which activations of one browser do not overlap, closes included, pages are distinct and none lags behind its browser's tombstone |
| `HostFencing.LeaseFenced` | app/src/main/tabBrowserHost.ts:330-333 | a lease accepted in any reachable state before a teardown is never accepted after it, for any page |
| `HostLaws.GenerationLaw` | app/src/main/tabBrowserHost.ts:125-179 | what any event does to the generation that a browser reports: one higher after an accepted command, user input, a dialog, a navigation that begins on its own, and the end of a page, and otherwise the same |
| `HostLaws.LeaseUsedUp` | app/src/main/tabBrowserHost.ts:330-352 | a lease that was good before such an event is never good again until the browser is closed, whichever page it names |
| `HostLaws.LeaseOnce` | app/src/main/tabBrowserHost.ts:330-352 | over every orderly run that does not close the browser, a lease is accepted by at most one command |
| `HostLaws.NextLease` | app/src/main/tabBrowserHost.ts:344-352 | an accepted command hands out the next lease, and it is good |
| `HostLaws.NavigationLaw` | app/src/main/tabBrowserHost.ts:125-179 | how the navigation of a page goes on: when it loads, and when a reload is still to be noticed |
| `HostLaws.OwnNavigationIsFree` | app/src/main/tabBrowserHost.ts:129-134 | the navigation that a command itself starts, with any redirects, leaves the lease good that the command has handed out |
| `HostTables.TablesLaw` | app/src/main/tabBrowserHost.ts:101-223 | after every event a browser has a page, a record and an activation under way exactly if the event says so; a page that stays is the same page, an activation that stays is the same but for its phase |
| `HostSeen.SeenExactly` | app/src/main/tabBrowserHost.ts:185-244 | over any step a browser is protected as visible exactly while its page is shown, if and only if nobody is shown whose place is gone and no other caller touches the visible reason |
| `HostSeen.ShownOverRuns` | app/src/main/tabBrowserHost.ts:185-244 | over every such run from the empty host at most one page is shown, each shown page is protected, and no ended activation keeps a place |
| `HostSeen.ShowsOne` | app/src/main/tabBrowserHost.ts:234-241 | a show leaves the one page shown |
| `HostSeen.OpeningShows` | app/src/main/tabBrowserHost.ts:198-203 | an opening that goes well shows its page exactly if it was asked to |
| `HostSeen.ShowIsUse` | app/src/main/tabBrowserHost.ts:240 | showing a browser is a use of it |
| `HostSeen.MakingIsUse` | app/src/main/tabBrowserHost.ts:119-120 | and so is making its page |
| `HostCalls.CapacityCalls` | app/src/main/tabBrowserHost.ts:101-223 | whatever happens, the host makes exactly the listed calls to its capacity, in this order; so the laws of the capacity are laws of the host |
| `HostCalls.TakesShownExactly` | app/src/main/tabBrowserHost.ts:214-227 | an event that is not about a shown browser takes its page exactly if it resumes an activation whose victim that browser was, and then the victim had gone once before |
| `HostCalls.ShownStays` | app/src/main/tabBrowserHost.ts:214-227 | so while no such stale grant is used, no event costs a shown browser its page that is not about it |
| `HostCalls.CrashReopens` | app/src/main/tabBrowserHost.ts:214-227 | a crash of the victim while its evictor still validates makes such a grant, whenever another browser could be evicted |
| `HostCalls.StaleGrantTakesShown` | app/src/main/tabBrowserHost.ts:506-512 | and from every such state a legal run ends with the victim opened again, shown, and then frozen by the old activation |
| `TabBrowserHost.TabBrowserHost.Open` | app/src/main/tabBrowserHost.ts:185-194 | a new record and a request for capacity |
| `TabBrowserHost.TabBrowserHost.Thaw` | app/src/main/tabBrowserHost.ts:506-511 | a request for capacity, unless there is a page |
| `TabBrowserHost.TabBrowserHost.Resume` | app/src/main/tabBrowserHost.ts:195-211 | roll back, or freeze the victim and go on |
| `TabBrowserHost.TabBrowserHost.Continue` | app/src/main/tabBrowserHost.ts:101-113 | make the page, then look the record up; a page made for a record that is gone is in no table |
| `TabBrowserHost.TabBrowserHost.Finish` | app/src/main/tabBrowserHost.ts:198-209 | the page calls of an opening; the first that throws undoes the activation and leaves the page |
| `TabBrowserHost.TabBrowserHost.HideAll` | app/src/main/tabBrowserHost.ts:198-201 | hides and unprotects the others one by one |
| `TabBrowserHost.TabBrowserHost.Restored` | app/src/main/tabBrowserHost.ts:512-548 | the end of a restoring load, kept or taken back |
| `TabBrowserHost.TabBrowserHost.Freeze` | app/src/main/tabBrowserHost.ts:493-504 | out of the table first, then a higher generation, the tombstone and the capacity |
| `TabBrowserHost.TabBrowserHost.Quarantine` | app/src/main/tabBrowserHost.ts:312-328 | the same, for the named incarnation only |
| `TabBrowserHost.TabBrowserHost.Close` | app/src/main/tabBrowserHost.ts:632-638 | cancel, remove, free the place and forget the record |
| `TabBrowserHost.TabBrowserHost.PageEvent` | app/src/main/tabBrowserHost.ts:125-179 | each page event changes the generation and the flags as specified; a crash or a blocked navigation tears down |
| `TabBrowserHost.TabBrowserHost.Perform` | app/src/main/tabBrowserHost.ts:185-352 | every stretch is one of these calls and takes the step of the machine; it keeps the bound if it is harmless, and the fencing of leases |
| `TabBrowserHost.TabBrowserHost.Act` | app/src/main/tabBrowserHost.ts:330-352 | a command is accepted exactly under the current lease and advances it |
| `JournalProofs.CrashAtomicExactly` | app/src/main/tabBrowserMigrationCoordinator.ts:57-87 | for every accepted commit, with no other writer of the layout, and with or without saves that fail after the rename: wherever it and later recoveries are cut off, one more recovery leaves the pair from before or the pair after, with no entry left, if and only if the states it may save are read back as what they were, recovery accepts the target, and the layout is as expected |
| `JournalProofs.CommitIsAtomic` | app/src/main/tabBrowserMigrationCoordinator.ts:66-87 | the sufficient half: every run of swaps, writes, interruptions and recoveries |
| `JournalProofs.UnsafeCommitBreaks` | app/src/shared/tabBrowserState.ts:124-159 | the necessary half: a state file past its limit, a text too long to be read back, a target that recovery refuses, a stale expectation or a failure behind the rename, each with the run that breaks it |
| `JournalProofs.OrdinaryCommit` | app/src/shared/tabBrowserState.ts:124-159 | the condition in plain words for a commit that finds the layout it expects: the entry with both whole layouts and the states around it fit 8 MiB and 1000 records, no text is longer than 2 MiB, and recovery accepts the target; with a save that fails after the rename it never holds |
| `BrowserState.LoadedIsIntact` | app/src/shared/tabBrowserState.ts:124-150 | what has been read once is read again unchanged |
| `JournalRuns.StepRefines` | app/src/main/tabBrowserMigrationCoordinator.ts:66-119 | each step of the two-file protocol, conflicting commits included, changes nothing observable or completes the one atomic action that the events asked for: the commit of what was staged, the migration that was planned, the removal of the orphans that were named, or an update |
| `JournalRuns.RunRefines` | app/src/main/tabBrowserMigrationCoordinator.ts:57-169 | a whole history of transactions, conflicts and crashes is the sequence of the atomic actions that its events give, as long as no crash meets an entry that cannot be carried out |
| `JournalRuns.CommitTakes` | app/src/main/tabBrowserMigrationCoordinator.ts:57-87 | an undisturbed commit is refused outright, taken whole, or without effect, each exactly under its condition |
| `JournalRuns.StartupDropsOrphans` | app/src/main/tabBrowserMigrationCoordinator.ts:125-135 | a startup with nothing pending and a current layout removes exactly the orphans; every other record, the profile, the recovery items, `layoutRevision` and the layout stay |
| `JournalRuns.StartupMigrates` | app/src/main/tabBrowserMigrationCoordinator.ts:136-169 | a migration commits the old records with the planned ones added, the planned recovery items behind the old ones, and the planned layout, and counts as one commit |
| `JournalRuns.RestartShowsView` | app/src/main/tabBrowserMigrationCoordinator.ts:103-119 | a restart at any such moment ends with no entry and exactly the pair the machine stood for |
| `JournalRuns.LayoutRevisionCountsCommits` | app/src/main/tabBrowserMigrationCoordinator.ts:83-86 | `layoutRevision` grows by exactly one for each commit or migration that the events complete, by none for an update or a removal of orphans, and no transaction commits twice |
| `JournalRuns.NeverOverwrites` | app/src/main/tabBrowserMigrationCoordinator.ts:111-114 | with any foreign writers and interruptions, a layout is replaced only where the journal expects what it finds |
| `JournalRuns.RecoveryResolves` | app/src/main/tabBrowserMigrationCoordinator.ts:104-118 | with foreign writers recovery ends the transaction if and only if the layout is usable and is the expected one or already the target; otherwise both files stay as they are |
| `TabBrowserMigrationCoordinator.BrowserFiles.SaveLayout` | app/src/main/layoutIO.ts:100-122 | compare and replace |
| `TabBrowserMigrationCoordinator.BrowserFiles.CommitBrowserLayoutMutation` | app/src/main/tabBrowserMigrationCoordinator.ts:57-87 | cut off after any write it leaves the disk the steps of the machine leave; saved means the committed pair, not saved means the old pair |
| `TabBrowserMigrationCoordinator.BrowserFiles.CoordinateTabBrowserMigration` | app/src/main/tabBrowserMigrationCoordinator.ts:95-169 | replay, orphan removal and migration, cut off after any write |
| `TabBrowserMigrationCoordinator.EndedCommit` | app/src/main/tabBrowserMigrationCoordinator.ts:57-87 | what a commit that has ended leaves behind: the committed pair where the layout was replaced, else the old one |
| `TabBrowserMigrationCoordinator.BrowserFiles.Load` | app/src/shared/tabBrowserState.ts:124-159 | the state as it is read back: empty above its limit, with at most 1000 records, without an entry whose text is too long |
| `BrowserState.FirstRecordsAre` | app/src/shared/tabBrowserState.ts:124-159 | of the records exactly the first ones are kept, as many as there may be |
| `TabBrowserMigrationCoordinator.CutCommitRecovers` | app/src/main/tabBrowserMigrationCoordinator.ts:90-94 | a safe commit cut off anywhere and then any number of recoveries cut off anywhere are healed by one that is not |
| `QueueProofs.RunKeeps` | app/src/main/tabBrowserService.ts:436-503 | over every interleaving of arrival, turn, dispatch, completion, cancellation, grace and isolation, nothing but waiting happens behind an entry whose barrier has not ended |
| `QueueProofs.NoOverlap` | app/src/main/tabBrowserService.ts:464-476 | in every reachable state a command runs only when every command before it is quiet: settled, cancelled with its page found idle, or its page detached; or that one is poisoned, and then this one is dispatched only if it came after a later destruction of the browser |
| `QueueProofs.DispatchedBehindPoison` | app/src/main/tabBrowserService.ts:316-319 | a command behind a poisoned one that was dispatched came after a destruction of the browser that came after the poison |
| `QueueProofs.RunGoesOn` | app/src/main/tabBrowserService.ts:68-88 | an entry ends in one terminal state and keeps it |
| `QueueProofs.CancelledBeforeStart` | app/src/main/tabBrowserService.ts:95-103 | an entry cancelled before it started never isolates a page, and ends only by settling |
| `QueueProofs.PoisonBlocks` | app/src/main/tabBrowserService.ts:316-319 | once poisoned, no command reaches the host until the browser is destroyed |
| `QueueProofs.DestroyDrainsQueue` | app/src/main/tabBrowserService.ts:674-679 | what waited on a destroyed browser is never dispatched, although the poison is lifted |
| `QueueProofs.CancelledStartedEnds` | app/src/main/tabBrowserService.ts:104-116 | a started command that is cancelled frees the queue after its grace, whatever its adapter does |
| `QueueProofs.NeverStranded` | app/src/main/tabBrowserService.ts:117-128 | the first entry that has not ended is running, or a step of the service moves it on |
| `QueueLaws.HealthyRuns` | app/src/main/tabBrowserService.ts:464-473 | a command whose turn has come, with the service accepting, no poison and no cancellation, becomes active and bound to its page |
| `QueueLaws.HealthyDispatches` | app/src/main/tabBrowserService.ts:560-565 | and its dispatch under the same fences reaches the host, and is reported if it announces |
| `QueueLaws.RefusedForAReason` | app/src/main/tabBrowserService.ts:464-473 | over every run, a command that is over without having reached the host was cancelled, or met a draining service or a poisoned browser at its turn or at its dispatch, or ended by itself before |
| `QueueLaws.EndsOnlyBecause` | app/src/main/tabBrowserService.ts:95-128 | a barrier ends, is given its grace, or turns on its page only for the reasons seen |
| `QueueLaws.EndsWhenever` | app/src/main/tabBrowserService.ts:95-128 | and whenever there is such a reason |
| `QueueLaws.PoisonedOnlyBecause` | app/src/main/tabBrowserService.ts:511-537 | a browser is poisoned only by a page that could not be detached, and healed only by destruction |
| `QueueLaws.EnqueuedAtTheEnd` | app/src/main/tabBrowserService.ts:444-463 | a new command waits at the end, as it was given, and changes no other |
| `QueueLaws.DestroyCancelsAll` | app/src/main/tabBrowserService.ts:674-679 | destroying a browser cancels every command on it, and completes and dispatches none |
| `TabBrowserService.BrowserQueue.EnqueueCommand` | app/src/main/tabBrowserService.ts:444-463 | a new entry at the end, cancelled already if its signal is |
| `TabBrowserService.BrowserQueue.RunOperation` | app/src/main/tabBrowserService.ts:464-471 | its turn: refused when cancelled, draining or poisoned, else bound to its page |
| `TabBrowserService.BrowserQueue.DispatchCommand` | app/src/main/tabBrowserService.ts:560-565 | the last fences before the host |
| `TabBrowserService.BrowserQueue.Settled` | app/src/main/tabBrowserService.ts:118-124 | the barrier notices that the operation settled |
| `TabBrowserService.BrowserQueue.Abort` | app/src/main/tabBrowserService.ts:95-116 | cancellation, and the release that may follow |
| `TabBrowserService.BrowserQueue.TimerFires` | app/src/main/tabBrowserService.ts:106-115 | the end of the grace: cooperative, or isolation |
| `TabBrowserService.BrowserQueue.IsolationEnds` | app/src/main/tabBrowserService.ts:511-537 | quarantine or freeze, else poison |
| `TabBrowserService.BrowserQueue.Destroy` | app/src/main/tabBrowserService.ts:674-679 | aborts every entry of the browser, then lifts the poison |
| `MergeProofs.RecoveryLaw` | app/src/main/tabBrowserService.ts:192-206 | the three-way law for every recovery id: who changed it alone has his way, the file keeps its own where both did, unique ids stay unique |
| `MergeProofs.OrderLaw` | app/src/main/tabBrowserService.ts:192-206 | the merged items are those of the file, in its order, and behind them the host's new ones, in its order |
| `MergeProofs.MergeKeepsTransactions` | app/src/main/tabBrowserService.ts:207 | the merge leaves `layoutRevision` and the pending entry of the file as they are, raises its revision by one, and takes the snapshot's profile |
| `MergeProofs.SaveIsUpdate` | app/src/main/tabBrowserService.ts:417-427 | so a host save is one of the updates of the two-file machine, whatever is merged: it counts as no commit and loses no entry |
| `MergeProofs.UndisturbedSave` | app/src/main/tabBrowserService.ts:181-208 | where the file is what was last saved, the merge yields the snapshot, profile included |
| `MergeProofs.MergeTwice` | app/src/main/tabBrowserService.ts:181-208 | merging the same snapshot again changes the revision only |
| `MergeProofs.FileFollowsSnapshots` | app/src/main/tabBrowserService.ts:417-427 | by induction over saves: alone, the file always holds the last snapshot |
| `MergeProofs.ForeignRecordSurvives` | app/src/main/tabBrowserService.ts:183-189 | a record the host never held keeps its last writer's value through any number of saves |
| `MergeProofs.StoredExactly` | app/src/main/tabBrowserService.ts:181-208 | after a save the file equals the snapshot if and only if each record and each item is one that the merge takes: the file has it already, or the snapshot has changed it and the file agrees with what was saved last |
| `MergeProofs.AfterLostSave` | app/src/main/tabBrowserService.ts:417-427 | after a save that fails behind the rename, the next one makes the file equal its snapshot if and only if each of its records and items repeats the lost one or differs from the one persisted before |
| `MergeProofs.LostSaveSticks` | app/src/main/tabBrowserService.ts:421-424 | so a return to the snapshot before the lost save undoes nothing of it: every record keeps the lost value |
| `RuntimeDelta.ApplyRecords` | app/src/main/tabBrowserService.ts:183-189 | both loops over records give the three-way law; a deletion loses to a concurrent edit |
| `RuntimeDelta.Reconcile` | app/src/main/tabBrowserService.ts:196-203 | find, splice and replace, in whatever order, give the merged items |
| `RuntimeDelta.ApplyBrowserRuntimeDelta` | app/src/main/tabBrowserService.ts:181-208 | the whole merge |
| `StreamProofs.StepKeeps` | app/src/client/router.ts:48-185 | every step of the daemon, the wire and the router keeps what the protocol promises |
| `StreamProofs.ShownIsContiguous` | app/src/client/router.ts:60-83 | over every run of output, drops, reconnects and mounts that meet their conditions, a terminal shows one gap-free, duplicate-free stretch of one epoch, and between replays the watermark is the position past its last byte |
| `StreamProofs.CatchesUp` | app/src/client/router.ts:109-118 | when nothing is under way the terminal shows every byte from where it begins to the very end of the stream, and begins no later than what the daemon still holds, and the watermark remembers that end: nothing is lost, and the next reconnect costs only what is new |
| `StreamHoles.ConditionsExact` | app/src/client/router.ts:48-185 | from every state of every run, an event keeps terminals contiguous and complete over all that may follow if and only if it meets its condition: a drop, that a delta from the stored watermark would go on where the terminal ends and leave nothing out; a mount, that no old watermark or old bytes can reach the new terminal |
| `StreamHoles.DropAfterAckLosesReplay` | app/src/client/router.ts:54-58 | a drop between an announcement, of a delta or of everything, and its replay: the terminal goes on behind the announced end, which is right if and only if the drop was resumable |
| `StreamHoles.ColdDelta` | app/src/client/router.ts:159-177 | a watermark that does not describe the terminal, such as that of a terminal before it, is presented for it and the bytes before it never come |
| `StreamHoles.FullThenDelta` | app/src/client/router.ts:178-185 | a terminal mounted while the socket is connecting, with an old watermark left, shows everything behind that watermark twice |
| `StreamHoles.MountConnectingBreaks` | app/src/client/router.ts:178-185 | the same from every state that does not meet the condition, with either kind of daemon |
| `StreamHoles.MountUpBreaks` | app/src/client/router.ts:64-71 | with a daemon that announces nothing, any old bytes or requests under way are taken for the replay or repeat it |
| `Router.Router.OnFrame` | app/src/client/router.ts:48-84 | announcement, replay of each kind, and live output, for one session; no other changes |
| `Router.Router.ReattachAll` | app/src/client/router.ts:152-157 | each session with a port is attached again with its own watermark |
| `LinkProofs.SocketsHeardInOrder` | app/src/client/connection.ts:29-61 | however late events of old sockets come, nothing of a socket is heard after a newer one or after its own end |
| `LinkProofs.ClosedIsSilent` | app/src/client/connection.ts:72 | after `close` nothing is heard and no timer brings a socket back |
| `LinkProofs.OneTimerConnects` | app/src/client/connection.ts:63-68 | at most one reconnect timer under way does anything, and only while there is no socket |
| `LinkLaws.HeardExactly` | app/src/client/connection.ts:35-61 | all that comes from the current socket is heard, each frame once and in order, and nothing else is |
| `LinkLaws.LossIsScheduled` | app/src/client/connection.ts:54-68 | a lost socket is followed by one timer, twice as late as the one before, between 100 and 2000 milliseconds; an opened one makes the next wait short again |
| `LinkLaws.TimerReconnects` | app/src/client/connection.ts:63-68 | and that timer brings a socket of a new epoch, unless the connection was closed |
| `LinkLaws.CloseEnds` | app/src/client/connection.ts:72 | closing ends the socket for good and tells nothing |
| `Connection.Connection.OnSocketData` | app/src/client/connection.ts:40-53 | the frames of a chunk are told if, and only if, the socket is the current one |
| `Connection.Connection.OnSocketClose` | app/src/client/connection.ts:54-68 | the loss is told and a reconnect scheduled, once |
| `LayoutLockProofs.MutualExclusion` | app/src/main/layoutLock.ts:186-211 | any number of processes, crashes and judgements: while no unlink of a reclaimer hits a living process, at most one is between its acquisition and its release |
| `LayoutLockProofs.NoLostUpdate` | app/src/main/layoutIO.ts:100-122 | while no unlink hits a process that still relies on its lock (one whose save is done may be hit), successive contents form a chain: each save that succeeded replaced exactly its expected version |
| `LayoutLockProofs.ExclusionExactly` | app/src/main/layoutLock.ts:152-160 | from every state of every run, a step leaves at most one process inside, over all that may follow, if and only if it is no unlink that hits a living process |
| `LayoutLockProofs.SavesExactly` | app/src/main/layoutLock.ts:152-160 | from every state of every run, a step leaves the chain of saves whole, over all that may follow, if and only if it is no unlink that hits a living process before its save is done or during its release |
| `LayoutLockProofs.CareSuffices` | app/src/main/layoutLock.ts:217-229 | a way to meet both over every run: owners are judged dead only when they are, and no two living reclaimers stand between check and unlink at once |
| `LayoutLockProofs.TwoReclaimersLoseAnUpdate` | app/src/main/layoutLock.ts:152-160 | two reclaimers that have both checked: from any state with a dead owner's lock, a run in which both saves succeed and the first is lost |
| `LockRecord.RoundTrip` | app/src/main/layoutLock.ts:17-37 | what is written is read back, for every valid record |
| `LockRecord.AcceptsExactly` | app/src/main/layoutLock.ts:21-37 | accepted texts are exactly the header, one pid, one start and one token line in some order, and a final newline |
| `LockRecord.ParseLayoutLockRecord` | app/src/main/layoutLock.ts:21-37 | the parsing loop computes the specified parse |
| `BrowserDomRelations.BrowserDomRelations.Remove` | app/src/main/browserDomRelations.ts:27-42 | deletes the node and precisely what is below it by child edges, cycles or not; the bound never cuts the loop short; the index stays the exact inverse |
| `BrowserDomRelations.BrowserDomRelations.Remember` | app/src/main/browserDomRelations.ts:43-70 | the index becomes the old relation overlaid with all that the descriptions state, or is emptied for good exactly when they are too many or leave too many nodes |
| `BrowserDomRelations.BrowserDomRelations.IsWithin` | app/src/main/browserDomRelations.ts:15-26 | true exactly when the target is among the node and its nearest 31 ancestors; stopping at a cycle misses nothing |
| `BrowserDomRelations.BrowserDomRelations.Link` | app/src/main/browserDomRelations.ts:54-61 | a node that moves leaves its old parent's set |
| `DomProofs.BelowIsLeast` | app/src/main/browserDomRelations.ts:27-42 | what is below a node is the least set closed under child edges |
| `DomProofs.RemovalKeepsWithin` | app/src/main/browserDomRelations.ts:27-42 | removal changes no answer about a surviving node |
| `DomProofs.StackStep` | app/src/main/browserDomRelations.ts:48-69 | one turn of the work list visits one description and keeps the rest, in its order |
| `Ring.LongestIsLongest` | app/src/main/browserAutomation.ts:74-76 | what is kept is the longest suffix of the accepted pushes within both budgets |
| `Ring.TrimmedPush` | app/src/main/browserAutomation.ts:68-77 | trimming before the next push loses nothing that would have fitted |
| `Ring.DroppedIsExact` | app/src/main/browserAutomation.ts:79-81 | for a cursor not ahead of the ring, what `since` counts as dropped is the number of pushes after the cursor that the ring no longer holds |
| `Ring.ReaderMissesNothing` | app/src/main/browserAutomation.ts:78-90 | a reader that polls from its last cursor is given every push once and in order, or it is counted as dropped |
| `RingLaws.SelectionLaw` | app/src/main/browserAutomation.ts:78-90 | a poll answers with eligible entries only, in their order, the newest ones without a gap, no more than were asked for and no more than fit, and stops only at one of these limits |
| `BoundedRing.BoundedRing.Push` | app/src/main/browserAutomation.ts:68-77 | the ring holds exactly the longest suffix after every push |
| `BoundedRing.BoundedRing.Since` | app/src/main/browserAutomation.ts:78-90 | selection, count of what is gone, and whether the answer is cut |
| `InteractionProofs.PressesAreReleased` | app/src/main/browserAutomation.ts:596-615 | for any script and any pattern of failures: each press sent is followed by an answered release, or the cleanup releases it |
| `InteractionProofs.CleanupOnlyReleases` | app/src/main/browserAutomation.ts:723-734 | the cleanup sends releases only, and only of what is owed |
| `InteractionProofs.CompleteGestureHoldsNothing` | app/src/main/browserPointer.ts:10-39 | every operation that runs to its end has released all it pressed |
| `InteractionProofs.FailuresAreHonest` | app/src/main/tabBrowserHost.ts:442-455 | a rejection that does not say "no rollback" means that no input event was sent |
| `InteractionLaws.CompletedMeans` | app/src/main/browserAutomation.ts:663-722 | an interaction that ends well has done to a page of the described kind exactly what its operation means: a box ends as desired and is not touched if it is so already, a text replaces only on demand, a drag moves with the button pressed |
| `InteractionLaws.RefusedSendsNothing` | app/src/main/browserAutomation.ts:663-722 | an operation without its target, a selection of any number of values but one, a box of unknown state and a drag to nowhere are refused before any event is sent |
| `InteractionLaws.UndisturbedCompletes` | app/src/main/browserAutomation.ts:580-735 | where nothing stops it, every other operation ends well |
| `InteractionLaws.AcceptedExactly` | app/src/main/tabBrowserHost.ts:400-485 | the host accepts an automation exactly when every step around the interaction and the interaction itself went well |
| `BrowserAutomation.Automation.SendIrreversible` | app/src/main/browserAutomation.ts:596-615 | what is held and what counts as dispatched, whatever becomes of the event |
| `BrowserAutomation.Automation.DispatchPointer` | app/src/main/browserPointer.ts:10-39 | the calls of each pointer gesture are its script |
| `BrowserAutomation.Automation.ExecuteInteraction` | app/src/main/browserAutomation.ts:580-735 | the interaction is its script up to the first failure, then the cleanup |
| `BrowserGeometry.QuadBounds` | app/src/main/browserGeometry.ts:4-12 | the smallest rectangle around the corners; none exactly for a malformed or flat quad |
| `BrowserGeometry.VisibleQuadPoints` | app/src/main/browserGeometry.ts:15-39 | the first point is the centre of the clipped quad, the others lie half-way between it and the first corners; all are in the viewport and in every half-plane that holds the quad; refused exactly for the stated reasons |
| `Geometry.CrossingOnSide` | app/src/main/browserGeometry.ts:29-30 | the crossing lies on the edge and exactly on the side |
| `Geometry.ClipAllSound` | app/src/main/browserGeometry.ts:20-33 | each pass keeps the earlier bounds and every half-plane that held the polygon |
| `Geometry.ClipExtremes` | app/src/main/browserGeometry.ts:22-31 | a polygon inside a side passes unchanged, one outside disappears |
| `Geometry.CenterBalances` | app/src/main/browserGeometry.ts:34-36 | the corners balance around the centre |
| `GeometryLaws.OutlineKept` | app/src/main/browserGeometry.ts:20-33 | a pass cuts off nothing inside: every half-plane that holds the clipped polygon holds every point of the old outline that is inside the side |
| `BrokerProofs.HandledAtMostOnce` | app/src/main/tabBrowserBroker.ts:465-469 | over any run a client's sequence number reaches the handler at most once, whatever expires, is evicted, forgotten or replayed |
| `BrokerProofs.ReplaysMatch` | app/src/main/tabBrowserBroker.ts:438-439 | a replayed result answers a request with the identical digest |
| `BrokerProofs.ReplayedToItsClient` | app/src/main/tabBrowserBroker.ts:413 | where no request id holds a colon, it answers the client that asked |
| `BrokerProofs.KeySharedExactly` | app/src/main/tabBrowserBroker.ts:413 | a request of another client can share its key if and only if its client or its id holds a colon |
| `BrokerProofs.ProperKeySharedExactly` | app/src/main/tabBrowserBroker.ts:413 | the same under the lengths the server checks |
| `BrokerProofs.SharedKeyReplays` | app/src/main/tabBrowserBroker.ts:425-439 | for every two requests that share a key and a digest, the second client is given the result of the first |
| `BrokerProofs.TablesBounded` | app/src/main/tabBrowserBroker.ts:468-469 | at most 256 results and at most the allowed client identities |
| `BrokerLaws.FreshIsAdmitted` | app/src/main/tabBrowserBroker.ts:440-469 | a request whose number is past all that its client has used, with nothing cached and room for its client, is admitted, uses up its number and is remembered; refused only by a full queue |
| `BrokerLaws.StaleIsRefused` | app/src/main/tabBrowserBroker.ts:440-469 | where nothing is cached, any other request is refused and changes nothing |
| `BrokerLaws.CachedIsReplayed` | app/src/main/tabBrowserBroker.ts:425-439 | where a result is cached, it is the answer exactly to the same request again, if authorized, and nothing is admitted |
| `BrokerLaws.ResultsStay` | app/src/main/tabBrowserBroker.ts:413-424 | a result that has not expired stays while there are fewer than the limit |
| `BrokerLaws.MarkIsHighest` | app/src/main/tabBrowserBroker.ts:465-469 | over every run the mark of a client is the highest number it has had admitted |
| `TabBrowserBroker.TabBrowserBrokerServer.Accept` | app/src/main/tabBrowserBroker.ts:413-469 | expiry, look-up, high-water mark, limit and insertion, as specified |
| `Frames.RoundTrip` | app/src/main/tabBrowserBroker.ts:134-137 | a concatenation of frames decodes to its bodies, exactly when none is too long |
| `Frames.DecodedAccounts` | app/src/main/tabBrowserBroker.ts:391-398 | what is decoded, framed again, and the rest are the stream |
| `Frames.ChunkingDoesNotMatter` | app/src/main/tabBrowserBroker.ts:391-398 | however a stream is cut up, the bodies handed on are the same |
| `Frames.SmallChunksNeverOverflow` | app/src/main/tabBrowserBroker.ts:392 | chunks of up to sixteen frames less three bytes never trip the buffer bound |
| `FrameDecoder.FrameDecoder.OnData` | app/src/main/tabBrowserBroker.ts:391-398 | the receiving loop is one feed of the specified receiver |

## Left out

- The page itself: Electron views, the debugger and CDP are an oracle that succeeds, fails or never
  answers; clocks are integers handed in; timers are events that may come at any time.
- Overlapping activations of one browser: `Host.Ordered` takes one at a time. Commands on one browser
  are queued (tabBrowserService.ts:446-496) and `show` never reports its dispatch, so its entry is
  never released early. `open` runs outside the queue (tabBrowserService.ts:441-444), on an id that
  nobody else knows: a command on a browser takes its id from the association of the sender's tab
  (browserAssociationAuthority.ts:54-58), which is written only after `open` has ended
  (index.ts:1687-1690). Those two files are not part of this model.
- The fields of a record that only describe it (title, focus, diagnostics, viewport), and
  `suppressEvents` beyond the removal from the table. An exception of a page call in `show` and `hide`
  touches no table of pages and is not modelled; in `open` it is.
- `BrowserCapacity.activate`, which the host does not use; the callback that reports waiting; ids are
  numbers whose order stands for the comparison of strings.
- The iteration order of the table of pages is a parameter (`others`) of the steps that walk it.
- The state file is one cell replaced at once; the size of each record, item and text in it is a
  number, so the normalisation of their fields is not modelled, nor is the creation time in an empty
  state, nor are symbolic links, temporary names and permissions of files.
- The promise chain of `TabBrowserStateStore.withLock`: operations on the state file never overlap, so
  `Journal` lets a transaction, a recovery or an update begin only when nothing else is under way.
- The Rust writer of the layout: in `Journal` it is any foreign writer, in `LayoutLock` one more
  process that follows the protocol.
- The contents of a migration: which records and recovery items it makes, and its target text, are
  parameters, and so is the state that a mutation stages.
- `LayoutLock` is a state machine and not a class, because its steps belong to different processes;
  `parseLegacyOwner` and the queries for the start of a process are not modelled, a judgement of an
  owner is any answer.
- The daemon: an assumed peer as the router's comments describe it; the mode preamble that precedes a
  full replay and the semantic Pi ports are left out; terminals of different sessions are independent.
- `enqueueCommand`: an operation that hangs before its dispatch and cannot be cancelled is not freed
  by the barrier, and the model says so only as `QueueProofs.NeverStranded` does; the operation
  registry appears as the flag `accepting`.
- Calls of the connection's listeners back into the connection.
- Coordinates, modifiers and texts of input events; the cleanup's coordinates outside the page.
- `Frames.ChunkingDoesNotMatter`: the limit of sixteen requests under way is not part of the decoder,
  because it depends on how fast the handler answers.
- Values of a quad that are not finite numbers; rounding of floating point.
- Console and network filters are any predicate; the sizes of entries are numbers.
- Validation of commands, tool actions and requests, approvals, dialogs, URL policy and redaction,
  which are long and branch by branch.
- `DOM.*` message names and the dispatch on them.
