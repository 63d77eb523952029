# Verification of the versioned-consent service

This project models a clickwrap consent service in Dafny and proves what it promises. Legal documents
have versions that are published, take effect, and are retired. Every customer of the audience gets a
rollout row per version and is asked for consent, tacitly accepts after an objection period, or is
blocked at a hard deadline; every acceptance and objection leaves append-only evidence. Around that
lifecycle stand several small stateful protocols.

How the files fit together:

- `Types`, `StateMachine`, `Versions`: records, the pure transition functions, which version is in force.
- `Lifecycle`, `Customers`: each operation as a function from one store to the next, error cases included.
- `Store`, `PublishService`, `Sweepers`, `ConsentServices`, `CustomerServices`: the repositories as a
  mutable class and the services as methods with their loops, each proved to compute exactly the
  function of the same operation.
- `Runs`, `Invariants`: runs of all operations in any order with a clock that never goes back, and the
  invariant every reachable state satisfies.
- `InForce`, `Rows`, `Evidence`, `Pushes`, `Reminders`: what each operation answers and leaves behind, told in
  the fields of the records rather than in the functions that compute them, and what follows over runs:
  where every piece of evidence comes from, when reminders go out, which scheduled version wins.
- `Ticks`, `Permanence`, `Schedule`, `Backdated`, `Coverage`, `References`, `Dashboard`, `Gate`, `Popup`:
  results over whole runs.
- `Scenarios`: runs that reach the stores in which a conditional promise fails.
- `Actors`, `EvidenceFrame`, `Interleaving`, `RequestSteps`, `WholeSteps`, `Concurrency`: requests and jobs
  that interleave between their read, their conditional write and their append.
- `Uninterrupted`: such a request, if nothing interrupts it, does what the whole operation does.
- `Idempotency`, `RateLimiter`, `Mailer`, `Reconciler`, `Escaping`: the protocols beside the lifecycle.
- `Collections`: two facts about merging maps.

The results over runs are about the functions of `Lifecycle` and `Customers`, and hold for the service
methods because those compute these functions. The interleaved systems have step relations of their own:
`Uninterrupted`, `Idempotency.UndisturbedAsAccept` and `Mailer.UndisturbedAsRunMailer` tie them to the same
functions and methods.

Instants are integer milliseconds, identifiers are numbers handed out in creation order, and a row is
identified by its pair of customer and version, which is unique in the schema. One operation reads the
clock once.

Two repository contracts are fixed as the services rely on them. The sweep candidates include pending
rows of ACTIVE versions, which the deadline sweeper needs (`src/sweeper/deadline-sweeper.service.ts:17-21`)
although the comment at `src/domain/ports.ts:152` names only NOTIFIED. Open rows are all but ACCEPTED and
SUPERSEDED, so OBJECTED rows are superseded too.

Where a promise holds only under a condition, the condition is proved exact, and for those that depend on
the history of the store `Scenarios` gives a run that breaks it:

- Publishing now and scheduling agree only if no other published sibling is newer and every hard-blocked
  customer still holds the role (`Schedule.PublishNowEqualsScheduled`).
- The backdated lookup agrees with history only while immediate publishes retire nothing newer than
  themselves (`Backdated.OrderIsNecessary`).
- A reactivated customer gets no rows for newly pushed roles, so it lacks some exactly when such a role has
  a current or upcoming version without a row (`Coverage.ReactivationCovers`).
- A deadline edit of a pending ACTIVE row is lost if it falls between the read and the write of the
  customer's first display (`Uninterrupted.EditDuringDisplayIsLost`).
- A push that names no role never finds its record again (`References.UpsertRepeats`).
- A push whose roles reach two records is possible, against the comment at
  `src/customers/customer-admin.service.ts:559-562` (`Scenarios.TwoRecordsReached`), and a well-formed push is
  refused exactly then (`References.AmbiguousPushIsRefused`).
- A configuration that lists one key with two different contents is rewritten at every boot
  (`Reconciler.SecondReconcileSettles`).
- Decoding undoes escaping only for values without certain entity texts (`Escaping.DecodeUndoesEscape`).
- A manual recording keeps drafts without rows exactly when its version is not a draft
  (`Coverage.RecordingOnDraftCollides`); runs therefore never record on drafts.

## Model

| member | source | states |
|---|---|---|
| `StateMachine.ObjectOrTacit` | src/domain/state-machine.ts:99-148 | a NOTIFIED row of a PASSIVE version can be objected to before its deadline and is tacitly accepted from it on; at each instant exactly one of the two applies |
| `StateMachine.FirstAccessCounts` | src/domain/state-machine.ts:52-69 | the first provable access fixes `notifiedAt` and the deadline for good, and a PASSIVE period never ends before `validFrom` |
| `StateMachine.TransitionsSettle` | src/domain/state-machine.ts:82-168 | a sweep that did something finds nothing more to do, and accept, object, sweep, access and supersede all leave ACCEPTED and SUPERSEDED as they are |
| `StateMachine.CarriedBlockEnds` | src/domain/state-machine.ts:160-184 | a block that exists through carry-over alone is not reported when superseded |
| `Versions.NewestExists` | src/domain/ports.ts:83-87 | every non-empty set of versions has a first one in the order behind the lookup of the current version |
| `Versions.Newest` | src/domain/ports.ts:83-87 | the current version is the newest published one in force: later `validFrom`, then later `publishedAt`, then earlier creation |
| `Stores.Store.FindCurrentPublished` | src/domain/ports.ts:83-87 | the repository lookup returns that version, or none when nothing is in force; `InForce.CurrentIsNotOvertaken` says in dates which one it is |
| `Stores.Store.Transition` | src/domain/ports.ts:130-141 | the conditional write applies exactly when the stored state is the expected one; it then changes the state, and the reminder counter if one is given, and returns the new row |
| `Stores.Store.FindUpcomingPublishedList` | src/domain/ports.ts:90-98 | every upcoming version of the document, the next to take effect first, ties as the current one will be picked |
| `InForce.CurrentIsNotOvertaken` | src/domain/ports.ts:83-87 | the current version is the published one that has begun and that no other published one has overtaken: by a later `validFrom`, by a later publication for the same one, or by earlier creation if both agree; there is none exactly if no published version has begun |
| `InForce.CurrentLeads` | src/domain/ports.ts:83-87 | every other published version that has begun did so earlier, or at the same instant but was published no later |
| `InForce.UpcomingByDates` | src/domain/ports.ts:90-98 | the upcoming list holds exactly the published versions still to begin, by `validFrom`, ties by later publication |
| `InForce.LaterPublishedWins` | src/sweeper/activation-sweeper.service.ts:62-92 | of versions scheduled for one instant the one published last is in force after the activation at that instant, and everything of the document that had begun is retired |
| `Stores.Store.SetNotifiedAtomically` | src/domain/ports.ts:164-174 | first access is written only onto a PENDING row without one; any other row stays as it is |
| `Stores.Store.AppendAcceptance` | src/domain/ports.ts:177-182 | a second effective acceptance of a pair is refused and the stored one stays |
| `PublishService.Publish` | src/agreements/publish.service.ts:56-142 | the service, loops included, leaves exactly the store and error of `Lifecycle.Publish`; the `Rows` lemmas on publishing say what that is |
| `PublishService.RetirePredecessors` | src/agreements/publish.service.ts:79-107 | the retire loop retires every published sibling, supersedes its open rows and collects the customers it hard-blocked |
| `PublishService.RollOut` | src/agreements/publish.service.ts:109-126 | each customer of the role gets one row, flagged if a predecessor blocked it |
| `Rows.PublishSucceedsExactly` | src/domain/consent-rules.ts:106-130 | a publish succeeds exactly for a draft with a change summary and, ACTIVE, a consent text and a hard deadline not before `validFrom`, or, PASSIVE, an objection period and no hard deadline; otherwise nothing changes |
| `Rows.PublishRefusalNamesCause` | src/domain/consent-rules.ts:88-130 | the error of a refused publish names a cause that is there |
| `Rows.VersionAfterPublish` | src/agreements/publish.service.ts:68-92 | the version is published with that stamp; an immediate publish retires every published sibling and changes no other version |
| `Rows.NewRowAfterPublish` | src/agreements/publish.service.ts:109-126 | exactly the customers of the role get a row: pending, no access, no reminder sent, an e-mail owed, the hard deadline for ACTIVE and none for PASSIVE, and blocking exactly if a sibling retired with it had hard-blocked them |
| `Rows.OldRowAfterPublish` | src/agreements/publish.service.ts:88-107 | rows of other versions stay as they are, except that those of a retired sibling are superseded unless ACCEPTED or SUPERSEDED |
| `Sweepers.RunActivation` | src/sweeper/activation-sweeper.service.ts:44-60 | the activation run over all documents leaves exactly the store of `Lifecycle.Activate` |
| `Sweepers.FlipAdds` | src/sweeper/activation-sweeper.service.ts:44-60 | activating documents one after the other is activating them at once: the order of the documents does not matter |
| `Sweepers.ActivateOne` | src/sweeper/activation-sweeper.service.ts:62-113 | one document: its outdated versions are retired, their open rows superseded, hard blocks continued on the current version |
| `Sweepers.CarryBlockOver` | src/sweeper/activation-sweeper.service.ts:121-154 | the successor row is created if missing, flagged if pending, left alone otherwise |
| `Rows.VersionAfterActivation` | src/sweeper/activation-sweeper.service.ts:62-92 | an activation retires exactly the versions that another one has overtaken, and changes no other |
| `Rows.RowAfterActivation` | src/sweeper/activation-sweeper.service.ts:95-154 | open rows of the versions it retires are superseded; a pending or notified row of the current version is flagged exactly if a retired one had hard-blocked the customer; every other row stays, and new ones appear only to carry a block on |
| `Rows.NewRowAfterActivation` | src/sweeper/activation-sweeper.service.ts:121-154 | such a new row is pending and blocking, with the deadline of its mode and no reminder sent |
| `Sweepers.SweepOne` | src/sweeper/deadline-sweeper.service.ts:53-119 | one row: decided on the row that was observed, applied to the stored one whenever its state is still the observed one, with tacit evidence only if it applied; `Evidence.SweepBooksSilence` says what is written |
| `Lifecycle.SweptAsObserved` | src/sweeper/deadline-sweeper.service.ts:53-119 | a due row stored as it was observed is swept as the specification of the pass says |
| `Sweepers.RunDeadlinePass` | src/sweeper/deadline-sweeper.service.ts:37-51 | the pass over all due rows leaves exactly the store of `Lifecycle.DeadlinePass`; `Ticks.PassOutcome` and `Evidence.PassBooksSilence` say what that is |
| `Sweepers.RunHourlyJob` | src/sweeper/deadline-sweeper.job.ts:19-23 | the hourly job is activation, then the deadline pass, at one instant |
| `Evidence.PassBooksSilence` | src/sweeper/deadline-sweeper.service.ts:53-88 | an acceptance the pass adds is TACIT, by the SYSTEM, of that instant, with the text of the version, for a NOTIFIED row of a PASSIVE version whose deadline has passed, and the row is ACCEPTED and otherwise unchanged |
| `Evidence.SweepBooksSilence` | src/sweeper/deadline-sweeper.service.ts:53-88 | the same for the sweep of one row that may have changed since it was observed |
| `Evidence.PassOnlyAdds` | src/sweeper/deadline-sweeper.service.ts:37-88 | the pass changes states and adds evidence, and nothing else |
| `ConsentServices.NotifyAccess` | src/consent/notification.service.ts:57-81 | reporting a display leaves the store of `Lifecycle.Notify`: error cases, and first access only |
| `Rows.RowAfterAccess` | src/domain/state-machine.ts:52-69 | the first display makes a pending row NOTIFIED; a PASSIVE deadline is then the period from now, in days of 24 hours, or now for a carried block, but not before `validFrom`; an ACTIVE deadline and every later display change nothing |
| `Rows.AccessFailsExactly` | src/consent/notification.service.ts:57-70 | a display fails exactly for a missing version or row, or a first one of a PASSIVE version without a period and without a carried block |
| `ConsentServices.ProcessConsent` | src/consent/acceptance.service.ts:108-191 | a consent leaves exactly the store and error of `Lifecycle.Consent`: checks in order, then state before evidence |
| `Evidence.ConsentSucceedsExactly` | src/consent/acceptance.service.ts:108-152 | it succeeds if and only if version and document exist, the version is current or upcoming, the customer exists and has the role, an ACTIVE version was displayed with exactly its text, the channel is the portal, an admin or a link, and the row is missing or neither ACCEPTED nor SUPERSEDED, with no evidence for it yet |
| `Evidence.ConsentSucceedsInRuns` | src/consent/acceptance.service.ts:108-152 | in a reachable store the evidence never stands in the way: the other conditions decide |
| `Evidence.ConsentBooks` | src/consent/acceptance.service.ts:142-191 | a success leaves the row ACCEPTED and otherwise as it was, and evidence of an active consent, through that channel, at that instant, to the text that was displayed |
| `Evidence.RefusalNamesCause` | src/domain/consent-rules.ts:25-86 | the error of a refused consent names a cause that is there |
| `ConsentServices.RecordAcceptance` | src/admin/manual-acceptance.service.ts:60-132 | a manual recording goes through its own checks in order, then the same two writes |
| `Evidence.RecordingSucceedsExactly` | src/admin/manual-acceptance.service.ts:60-99 | a recording succeeds if and only if it has a reason and a document, is a consent or an import, customer, version and document exist, the customer has the role, and the row is still open without evidence |
| `Evidence.RecordingRefusalNamesCause` | src/admin/manual-acceptance.service.ts:60-99 | the error of a refused recording names a cause that is there |
| `Evidence.RecordingBooks` | src/admin/manual-acceptance.service.ts:90-132 | a success leaves the row ACCEPTED and otherwise as it was, and evidence of that method by an admin at that instant |
| `ConsentServices.RecordObjection` | src/consent/objection.service.ts:45-102 | an objection within the period moves NOTIFIED to OBJECTED and is appended; otherwise nothing changes |
| `Evidence.ObjectionSucceedsExactly` | src/consent/objection.service.ts:45-102 | an objection succeeds if and only if the version is PASSIVE, the row NOTIFIED and its deadline still ahead; it then changes that state and adds the objection, otherwise nothing, and its error names a cause that is there |
| `ConsentServices.PatchState` | src/admin/customer-version-state-admin.service.ts:45-74 | admin repair changes one row only and only its state and deadline: it never does more than move an OBJECTED or hard-blocked row to NOTIFIED, takes no deadline away, and an error leaves everything as it was |
| `Rows.RepairSucceedsExactly` | src/admin/customer-version-state-admin.service.ts:45-74 | which repairs succeed and what each writes: a reason is needed; reopening needs an OBJECTED row, anything else a deadline, and suspending an EXPIRED_BLOCKING row |
| `ConsentServices.ReopenedMayObjectAgain` | src/admin/customer-version-state-admin.service.ts:45-56 | a reopened objection may be raised again exactly while the period runs, and doing so restores the row with one more objection noted |
| `ConsentServices.SuspendedBlocksAgain` | src/admin/customer-version-state-admin.service.ts:57-67 | a suspended block returns with the first sweep from its new deadline on, and with none before |
| `ConsentServices.RemindOne` | src/sweeper/reminder.service.ts:51-75 | a reminder run mails every threshold that is due and still open, and the counter advances by the number of mails |
| `ConsentServices.RemindersSettle` | src/sweeper/reminder.service.ts:51-80 | reminding again at the same instant mails nothing |
| `Reminders.RunCatchesUp` | src/sweeper/reminder.service.ts:51-80 | a run raises the counter of an ACTIVE row to the number of instants among seven and two days before the deadline that have passed, never lowers it, and leaves PASSIVE rows alone |
| `Reminders.NoEarlyReminder` | src/sweeper/reminder.service.ts:51-80 | after every run of events the counter of an ACTIVE row whose deadline nobody edited is at most that number, and that of a PASSIVE row is zero |
| `Reminders.RemindersCatchUp` | src/sweeper/reminder.service.ts:51-80 | after every run of events a reminder run on such a row, still pending or notified, brings the counter to exactly that number |
| `CustomerServices.CheckImports` | src/customers/customer-admin.service.ts:757-792 | explicit imports are all checked, first error wins, before anything is written |
| `CustomerServices.ResolveSignedDocuments` | src/customers/customer-admin.service.ts:794-847 | signed document types resolve to the versions in force at the signing date across the audiences of the roles, or to the first error |
| `CustomerServices.ImportAcceptances` | src/customers/customer-admin.service.ts:350-366 | imports become ACCEPTED rows with IMPORT evidence |
| `CustomerServices.RolloutCurrentVersions` | src/customers/customer-admin.service.ts:637-685 | onboarding inserts a row for each current and upcoming version of the roles that has none |
| `Rows.RowAfterOnboarding` | src/customers/customer-admin.service.ts:637-685 | onboarding leaves existing rows alone and adds one for exactly the versions owed to the roles: pending, not blocking, with the deadline of their mode and no reminder sent |
| `CustomerServices.CreateCustomer` | src/customers/customer-admin.service.ts:322-376 | creation validates everything first, then saves, imports and rolls out |
| `Pushes.CreateSucceedsExactly` | src/customers/customer-admin.service.ts:322-348 | a creation succeeds if and only if the reference is not blank, the roles exist, the e-mails are valid, nobody with the reference shares a role, listed imports are published versions for the roles without repetition, and each signed type stands for some version; otherwise nothing changes |
| `Pushes.CreationRefusalNamesCause` | src/customers/customer-admin.service.ts:757-847 | the error of a refused creation names a cause that is there: an unknown role, a listed version that does not exist or is for another role, or a signed type without a document |
| `Pushes.ImportsExactly` | src/customers/customer-admin.service.ts:757-847 | exactly the listed versions and those the signed types stand for are imported |
| `Pushes.TrimIsMiddle` | src/customers/customer-admin.service.ts:794-847 | trimming a signed type takes the spaces off both ends and nothing else |
| `Pushes.CreationLeavesRecord` | src/customers/customer-admin.service.ts:350-366 | the record carries the given data and nobody else changes |
| `Pushes.RowAfterCreation` | src/customers/customer-admin.service.ts:350-376 | imported versions get an ACCEPTED row without an access, the other versions owed to the roles a pending one, and no other row is added or changed |
| `Evidence.CreationBooks` | src/customers/customer-admin.service.ts:350-366 | the evidence a creation adds is IMPORT by an admin, with the date of the entry, or else of the signed documents |
| `CustomerServices.UpdateCustomer` | src/customers/customer-admin.service.ts:398-450 | an update rolls out for the added roles only |
| `Pushes.UpdateSucceedsExactly` | src/customers/customer-admin.service.ts:398-430 | an update succeeds if and only if the record is active, new roles exist and belong to nobody else of the reference, and new e-mails are valid |
| `Pushes.RecordAfterUpdate` | src/customers/customer-admin.service.ts:398-438 | a given field is replaced, an absent one stays, and a blank company name clears the company |
| `Pushes.RowAfterUpdate` | src/customers/customer-admin.service.ts:439-450 | rows are added for exactly what is owed to the roles that are new |
| `CustomerServices.UpsertByExternalRef` | src/customers/customer-admin.service.ts:489-530 | the inbound push leaves exactly the store, error and kind of `Customers.Upsert` |
| `Pushes.PushLeavesRecord` | src/customers/customer-admin.service.ts:489-622 | after every push that is not refused the record written to is active and carries the reference, names, company, e-mails and roles as pushed, and no other record changes |
| `Pushes.PushOutcome` | src/customers/customer-admin.service.ts:489-530 | a push goes to the earliest record with its reference and one of its roles: it creates without one, revives a deleted one, and changes nothing if and only if that record is active and carries the data already |
| `Pushes.PushRefusedExactly` | src/customers/customer-admin.service.ts:489-569 | a push is refused if and only if its data are malformed or two records carry its reference and one of its roles; nothing changes then |
| `Pushes.DiffFindsAll` | src/customers/customer-admin.service.ts:611-622 | the differences are empty if and only if the record carries the pushed data, and applying them makes it carry them |
| `CustomerServices.DeactivateByExternalRef` | src/customers/customer-admin.service.ts:540-545 | the first active customer with the reference and audience is soft-deleted; otherwise nothing happens |
| `Pushes.DeactivationByFields` | src/customers/customer-admin.service.ts:540-545 | the earliest active record with the reference and the role gets its deletion stamp, and nothing else changes |
| `Invariants.StepKeeps` | src/agreements/publish.service.ts:56-142 | every event keeps the invariant of `Runs.Inv`: rows and evidence agree, open rows belong to published versions, deadlines and evidence are in order |
| `Invariants.RunKeeps` | src/domain/state-machine.ts:1-184 | every reachable state satisfies that invariant |
| `Invariants.ConsentKeeps` | src/consent/acceptance.service.ts:142-191 | in a reachable state a consent that passes its checks is never refused at the append |
| `Invariants.AccessKeeps` | src/consent/notification.service.ts:70-81 | in a reachable state reporting a display of an existing row never fails |
| `Ticks.OneInForce` | src/sweeper/activation-sweeper.service.ts:62-92 | after an activation each document has at most one version in force, the one that was current before |
| `Ticks.RetiredIsClosed` | src/sweeper/activation-sweeper.service.ts:88-113 | a retired version keeps no open row; its acceptances are untouched |
| `Ticks.BlockIsCarriedOver` | src/sweeper/activation-sweeper.service.ts:95-154 | whoever a retired version hard-blocked is blocking on the current version, unless that row is ACCEPTED, OBJECTED or SUPERSEDED |
| `Ticks.ActivationIsIdempotent` | src/sweeper/activation-sweeper.service.ts:44-113 | a second activation at the same instant changes nothing |
| `Ticks.PassOutcome` | src/domain/state-machine.ts:134-148 | the pass newly books exactly the PASSIVE NOTIFIED rows whose deadline has passed and blocks exactly the ACTIVE pending ones |
| `Ticks.PassTouchesOnlyCurrent` | src/sweeper/deadline-sweeper.job.ts:19-23 | after the activation of the same tick the pass changes only rows of the version in force for its document, once it is valid |
| `Ticks.NothingOverdue` | src/sweeper/deadline-sweeper.service.ts:37-88 | after the tick no deadline has passed without its consequence |
| `Ticks.TickIsSafe` | src/sweeper/deadline-sweeper.job.ts:19-23 | both of the above after every run whose admin deadline edits stay at or after `validFrom` |
| `Ticks.NoTacitWithoutAccess` | src/domain/state-machine.ts:52-148 | in every reachable state: no PASSIVE hard block, NOTIFIED and OBJECTED carry `notifiedAt`, and each tacit acceptance comes no earlier than access plus period and `validFrom`, unless an admin edited the deadline or access was carry-over blocked |
| `Permanence.StepPersists` | src/domain/state-machine.ts:82-168 | no event deletes a row, makes one pending again, leaves ACCEPTED or SUPERSEDED, moves a first access, sets an e-mail marker again, withdraws evidence or changes published content |
| `Permanence.RunPersists` | src/domain/state-machine.ts:82-168 | the same over any stretch of any run |
| `Evidence.EvidenceHasItsEvent` | src/consent/acceptance.service.ts:142-191 | every acceptance in a reachable store goes back to one event, before which there was none, and says what that event was: method, channel, instant and text |
| `Evidence.WhoAgreed` | src/sweeper/deadline-sweeper.service.ts:53-88 | nobody consents by silence: an active consent has a consent or recording of that row behind it, an import a recording or the creation, and TACIT, like the SYSTEM channel, exactly the hourly job |
| `Evidence.ConsentStaysOnRecord` | src/consent/acceptance.service.ts:142-191 | a consent that succeeded stays on record, with its channel, instant and displayed text, through the rest of every run |
| `Schedule.PublishNowEqualsScheduled` | src/agreements/publish.service.ts:68-142 | publishing now and scheduling then flipping end in the same store, up to clock stamps, if and only if no other published sibling is newer and every customer a sibling hard-blocks still holds the role |
| `Schedule.PublishNowEqualsScheduledInRuns` | src/agreements/publish.service.ts:68-142 | the same in every reachable state, for every publishable version |
| `Schedule.ActivationIsTheFlip` | src/sweeper/activation-sweeper.service.ts:44-113 | an activation run over all documents is that flip when the other documents are settled |
| `Schedule.ImmediatePublishTakesOver` | src/agreements/publish.service.ts:80-126 | an immediate publish leaves the version the only published one and in force, nothing open for the others, and everyone they hard-blocked with the role blocked for it |
| `Schedule.ScheduledPublishWaits` | src/agreements/publish.service.ts:74-126 | a scheduled publish changes neither the version in force before its time nor any existing row |
| `Backdated.BackdatedLookupIsHistory` | src/customers/customer-admin.service.ts:849-876 | in every run whose publishes up to a past date were in order, the backdated lookup finds the version that was in force at that date |
| `Backdated.LookupIsCurrent` | src/customers/customer-admin.service.ts:849-876 | with every retired version outranked by one in force, the lookup for any date from now on finds the current version |
| `Backdated.OrderIsNecessary` | src/agreements/publish.service.ts:80-85 | an immediate publish keeps the lookup right for all later dates if and only if every sibling it retires is older |
| `Coverage.EveryObligationHasItsRow` | src/customers/customer-admin.service.ts:637-685 | at every instant after every run each customer has a row for each current or upcoming version of its roles, if no reactivation opened an uncovered role |
| `Coverage.ReactivationCovers` | src/customers/customer-admin.service.ts:577-603 | a reactivation, which does not roll out, keeps that exactly when the roles it adds have no current or upcoming version without a row; one that adds no role always does |
| `Coverage.AddedRolesDecide` | src/customers/customer-admin.service.ts:577-603 | only the roles a customer did not have can lack rows |
| `Coverage.InsertsNeverCollide` | src/agreements/publish.service.ts:109-126 | in every reachable state the rows a publish or a creation inserts are new, so no pair ever has two |
| `Coverage.RecordingOnDraftCollides` | src/admin/manual-acceptance.service.ts:76-99 | a manual recording leaves every draft without rows exactly when its version is not a draft; the later publish of a draft recorded on meets its row |
| `Scenarios.NewerSiblingReached` | src/agreements/publish.service.ts:68-142 | a run after which publishing and scheduling differ, because another version is newer |
| `Scenarios.RolelessBlockReached` | src/agreements/publish.service.ts:68-142 | a run after which they differ, because a blocked customer lost the role |
| `Scenarios.PublishOutOfOrderReached` | src/agreements/publish.service.ts:80-85 | a run after which an immediate publish makes the backdated lookup wrong for some date |
| `Scenarios.UncoveredReactivationReached` | src/customers/customer-admin.service.ts:577-603 | a run after which nobody lacks a row, and a push revives a customer without one for the added role |
| `Scenarios.RecordingOnDraftReached` | src/admin/manual-acceptance.service.ts:76-99 | a run after which a recording on a draft goes through and its publish meets the row |
| `Scenarios.TwoRecordsReached` | src/customers/customer-admin.service.ts:559-569 | a run after which a well-formed push reaches two records |
| `EvidenceFrame.WholeFrame` | src/agreements/publish.service.ts:56-142 | publish, activation, repair and administration never look at evidence: appending some a little later makes no difference to them |
| `Concurrency.InterleavingSound` | src/domain/ports.ts:130-174 | however reads, conditional writes and appends of consents, recordings, objections, sweeps, reminders and displays interleave with the other operations, the store with everything owed appended satisfies the whole invariant |
| `Concurrency.OneAcceptanceEach` | src/consent/acceptance.service.ts:142-191 | appended acceptances plus requests that have won but not appended number one for an ACCEPTED row and none otherwise |
| `Concurrency.AppendNeverRefused` | src/consent/acceptance.service.ts:153-191 | the append after a won transition is never refused as a duplicate |
| `Concurrency.ObjectionsBounded` | src/consent/objection.service.ts:84-102 | objections exceed reopenings by at most one, and by exactly one while the row is OBJECTED |
| `RequestSteps.SweepEvidence` | src/sweeper/deadline-sweeper.service.ts:53-88 | a tacit acceptance decided on the row that was read is in order for the row that is stored when it applies |
| `RequestSteps.AccessCompletes` | src/consent/notification.service.ts:57-81 | a first access decided on the row that was read is in order for the row that is pending when it is written, even if its deadline has changed meanwhile |
| `Concurrency.QuiescentIsInOrder` | src/sweeper/deadline-sweeper.service.ts:53-88 | whenever no append is outstanding the stored rows and the stored evidence satisfy the invariant by themselves |
| `Uninterrupted.ConsentAlone` | src/consent/acceptance.service.ts:108-191 | a consent to an existing row that nothing interrupts leaves exactly what the whole consent leaves |
| `Uninterrupted.ManualAlone` | src/admin/manual-acceptance.service.ts:60-132 | the same for a manual recording |
| `Uninterrupted.ObjectionAlone` | src/consent/objection.service.ts:45-102 | the same for an objection |
| `Uninterrupted.SweepAlone` | src/sweeper/deadline-sweeper.service.ts:53-119 | the same for the sweep of one row |
| `Uninterrupted.ReminderAlone` | src/sweeper/reminder.service.ts:51-75 | the same for a reminder run |
| `Uninterrupted.IdleReminderWritesNothing` | src/sweeper/reminder.service.ts:51-75 | a reminder job with nothing to send writes nothing, whatever has happened meanwhile |
| `Uninterrupted.AccessAlone` | src/consent/notification.service.ts:57-81 | the same for the report of a display, on a row that is in order |
| `Uninterrupted.EditDuringDisplayIsLost` | src/consent/notification.service.ts:57-81 | an admin deadline edit of a pending ACTIVE row that falls between the read and the write of a first display is lost, so it stands exactly when it changed nothing; before or after the display it stands |
| `Idempotency.IdempotencyStore.Reserve` | src/consent/inmemory.ts:23-29 | a key is reserved exactly when it has no entry |
| `Idempotency.IdempotencyStore.Release` | src/consent/inmemory.ts:31-35 | release removes a reservation and never a response |
| `Idempotency.IdempotencyStore.Accept` | src/consent/acceptance.service.ts:82-106 | a request with a stored key replays it, one with a reserved key gives up after its polls, any other is processed and stored if it succeeds; other keys are unaffected |
| `Idempotency.UndisturbedAsAccept` | src/consent/acceptance.service.ts:82-106 | a request of the interleaved system that nothing disturbs ends within its budget of steps with the entries and the answer of `Accept` |
| `Idempotency.OneOwner` | src/consent/acceptance.service.ts:82-106 | at every moment a key has at most one request between reserve and put or release, a reservation always has one, and at most one processing has ever succeeded |
| `Idempotency.OneResponse` | src/consent/acceptance.service.ts:82-106 | all successful requests of a key got the same, stored, response |
| `Idempotency.ResponsesStay` | src/consent/inmemory.ts:31-35 | no later step, a failing request included, erases a stored response |
| `Idempotency.RequestsStop` | src/consent/acceptance.service.ts:221-236 | each request has a budget of its own steps that only its own steps use up, so every waiter stops within the poll bound |
| `Idempotency.KeepsPolling` | src/consent/acceptance.service.ts:221-236 | a waiter polls fifty times before it gives up |
| `RateLimiter.SlidingWindowRateLimiter.Allow` | src/accept/rate-limiter.ts:21-32 | a hit is allowed exactly when fewer than `limit` earlier allowed hits of the key lie in the window, although only pruned lists are kept; other keys keep their lists |
| `RateLimiter.CallTracks` | src/accept/rate-limiter.ts:21-32 | the pruned list of each key agrees with the whole history from the last cutoff on |
| `RateLimiter.EveryWindowIsBounded` | src/accept/rate-limiter.ts:21-32 | no interval of window length ever holds more than `limit` allowed hits of a key |
| `RateLimiter.OneHitPerWindow` | src/accept/rate-limiter.ts:21-32 | with a limit of one, a second hit is allowed exactly when a whole window has passed |
| `RateLimiter.NoNeedlessRefusal` | src/accept/rate-limiter.ts:21-32 | a hit is refused only if `limit` earlier ones of the key, allowed or not, lie less than a window back |
| `RateLimiter.KeysAreIndependent` | src/accept/rate-limiter.ts:12-32 | the decisions for a key are those of a limiter that only ever sees that key |
| `Mailer.FindDueForNotification` | src/domain/ports.ts:154-158 | the batch is the oldest due rows, at most `limit` |
| `Mailer.BatchHoldsOldest` | src/domain/ports.ts:154-158 | a batch holds pending rows with a marker; one left out means that the batch is full and that nothing in it was marked later |
| `Mailer.RunMailer` | src/sweeper/rollout-notification.service.ts:39-72 | a completed run clears exactly the markers of its batch and mails, in order, those whose version and customer are still there |
| `Mailer.MailedExactly` | src/sweeper/rollout-notification.service.ts:51-71 | of a batch exactly the rows whose version exists and whose customer exists and is active are mailed, once each |
| `Mailer.MailedInOrder` | src/sweeper/rollout-notification.service.ts:39-72 | mails go out in the order of the batch |
| `Mailer.RunsDrain` | src/sweeper/rollout-notification.service.ts:39-72 | a completed run leaves exactly min(batch, due) fewer rows due |
| `Mailer.RunsDrainAll` | src/sweeper/rollout-notification.service.ts:39-72 | n completed runs leave n batches fewer due, so nothing is due after ceil(due / batch) runs and not before |
| `Mailer.UndisturbedAsRunMailer` | src/sweeper/rollout-notification.service.ts:39-72 | a run of the interleaved system that nothing disturbs clears the same markers and sends the same mails as `RunMailer`, and changes nothing else |
| `Mailer.PublishOwesMail` | src/agreements/publish.service.ts:109-126 | after a publish exactly the customers of the role are owed an e-mail about the version |
| `Mailer.AtMostOnce` | src/sweeper/rollout-notification.service.ts:51-71 | over any sequence of runs, crashes and restarts among all other events, each row is mailed at most once, and never while its marker stands |
| `Mailer.ClaimSound` | src/sweeper/rollout-notification.service.ts:51-55 | taking a row for sending, its marker cleared, keeps what makes that true: mailed rows have no marker, and rows still to send were not mailed |
| `Gate.DetailKeyInjective` | src/domain/keys.ts:8-28 | two documents with valid keys never share a detail key |
| `Gate.DetailKeyIsUpperCase` | src/domain/keys.ts:27-28 | the key of a document with valid keys has no lower-case letter and is as long as its parts with one separator |
| `Gate.ComputeCompliance` | src/domain/compliance.ts:56-92 | the aggregate is false exactly if some entry in scope blocks; deleted customers are compliant without details |
| `Gate.GetCompliance` | src/compliance/compliance.service.ts:58-99 | the gate answers by the versions in force, with one detail for each document in scope: version, state, whether it complies, and mode and deadline while NOTIFIED or EXPIRED_BLOCKING |
| `Gate.GateClosedExactly` | src/domain/compliance.ts:56-92 | it is closed to an active customer if and only if, for a document of an asked role of theirs, the row of the version in force is EXPIRED_BLOCKING, or pending or notified with a block carried over |
| `Gate.ConjunctionOfDetails` | src/domain/compliance.ts:67-92 | the aggregate is the conjunction of the details |
| `Gate.GateByRole` | src/domain/compliance.ts:63-71 | the unscoped answer is the conjunction of the answers for each role |
| `Popup.GetPendingAgreements` | src/compliance/pending-agreements.service.ts:71-128 | the feed lists every current or upcoming version in scope with an open row exactly once, as the store has it, document by document, the version in force first and the upcoming ones in the order they take effect |
| `Popup.FeedHoldsExactly` | src/compliance/pending-agreements.service.ts:71-128 | a version is in the feed if and only if it is current or upcoming, for an asked role, with a row that is pending, notified or hard-blocked |
| `Popup.ItemSays` | src/compliance/pending-agreements.service.ts:98-128 | each item carries what version, document and row say; it can be objected to exactly if PASSIVE and in force, and is blocking exactly as the gate sees it |
| `Popup.ClosedGateIsShown` | src/compliance/pending-agreements.service.ts:71-128 | the gate is closed exactly when the feed shows a blocking item already in force |
| `Popup.AcceptingOpensTheGate` | src/consent/acceptance.service.ts:118-166 | accepting every such item, in any listed order, succeeds each time and opens the gate |
| `References.RunDisjoint` | src/customers/customer-admin.service.ts:729-739 | in every run customers with one reference, soft-deleted included, never share a role |
| `References.UpsertRepeats` | src/customers/customer-admin.service.ts:489-530 | repeating a successful push finds the same record and writes nothing, exactly when the input names a role |
| `References.AmbiguousPushIsRefused` | src/customers/customer-admin.service.ts:565-569 | a well-formed push is refused if and only if its roles reach two records, and then changes nothing |
| `References.SingleRoleReachesOne` | src/customers/customer-admin.service.ts:565-569 | a push of a single role never reaches two |
| `References.DeactivationIsUnambiguous` | src/customers/customer-admin.service.ts:540-545 | a reference and an audience name at most one active customer |
| `References.DiffSettles` | src/customers/customer-admin.service.ts:611-622 | after the differences are applied none is left |
| `References.RunDocumentsUnique` | src/domain/ports.ts:76-77 | in every run there is one document per type and audience |
| `Dashboard.ComputeStats` | src/admin/dashboard.service.ts:151-183 | every number of the dashboard is the size of the set it counts |
| `Dashboard.StatsByFields` | src/admin/dashboard.service.ts:151-183 | each number counts the rows of the version, of customers not soft-deleted, in the states it is for; the rate is accepted over total |
| `Dashboard.ChannelsByFields` | src/admin/dashboard.service.ts:151-183 | each channel counts the accepted ones whose evidence came through it |
| `Dashboard.MethodsByFields` | src/admin/dashboard.service.ts:151-183 | each method likewise |
| `Dashboard.BucketsAddUp` | src/admin/dashboard.service.ts:151-183 | every customer that counts is in exactly one bucket |
| `Dashboard.DashboardConserves` | src/admin/dashboard.service.ts:151-183 | in every reachable state total = accepted + pending + blocked + objected, and channels and methods each sum to accepted |
| `Reconciler.Registry.UpsertAll` | src/legal-entities/legal-entities.reconciler.ts:72-83 | all entries are upserted by key, old ids kept, last entry of a key winning; nothing is written exactly when all is there already |
| `Reconciler.Registry.DeleteUnused` | src/legal-entities/legal-entities.reconciler.ts:84-101 | of the unconfigured entities exactly those in use are kept |
| `Reconciler.Registry.Reconcile` | src/legal-entities/legal-entities.reconciler.ts:104-138 | after a reconcile configured entries are present with their fields and old ids, others exactly if in use; a settled store is not written to |
| `Reconciler.ReconcileConfig` | src/legal-entities/legal-entities.reconciler.ts:58-66 | audiences and document types are both reconciled, neither disturbing the other |
| `Reconciler.SecondReconcileSettles` | src/legal-entities/legal-entities.reconciler.ts:14-14 | a second reconcile has nothing to write if and only if no two entries of a key contradict each other |
| `Escaping.EscapeIsSinglePass` | src/domain/email-template.ts:53-59 | the five chained replacements equal a single pass over the characters |
| `Escaping.EscapeInjective` | src/domain/email-template.ts:53-59 | different values never escape to the same text |
| `Escaping.DecodingEscaped` | src/domain/email-template.ts:75-82 | decoding an escaped value is decoding the value itself without the steps for spaces and ampersands |
| `Escaping.DecodeUndoesEscape` | src/domain/email-template.ts:53-82 | decoding undoes escaping if and only if the value holds none of the texts `&lt;`, `&gt;`, `&quot;`, `&#39;` |

## Left out

- Crashes between a won transition and the append of its evidence: the repository names this as a limitation, so nothing is claimed about them. The mailer's crashes are modelled.
- Concurrency.InterleavingSound: consent and manual recording on a pair without a row (an unconditional save) are covered in runs of whole operations only, and publish, activation, admin repair and administration are single steps, because their writes are full-row saves.
- Concurrency.QuiescentIsInOrder: the activation part of the hourly job is one step while each row of its deadline pass is read, decided and written separately; that every such store is also one a run of whole operations reaches is not claimed.
- RequestSteps.AccessCompletes: the invariant makes no claim about the deadline of a row an admin has edited, beyond `validFrom`; `Uninterrupted.EditDuringDisplayIsLost` shows why.
- Backdated.BackdatedLookupIsHistory: publishes at exactly the date looked up belong to the events up to that date; the gap between `validFrom` and the next activation is not closed by the code and not claimed.
- Ticks.BlockIsCarriedOver: a block held by carry-over alone is not handed on a second time by the code; `StateMachine.CarriedBlockEnds` states that limit.
- Schedule.PublishNowEqualsScheduled: both stores are compared at the instant of the flip, with nothing happening between the scheduled publish and the flip.
- Mailer.AtMostOnce: one process; the guard against overlapping runs is per process in the code as well. An attempt counts as an e-mail, whether or not the delivery then fails.
- Sweepers.RunDeadlinePass: an entry that throws is logged and skipped by the code; under the foreign keys no modelled entry throws.
- Gate.DetailKeyInjective: upper-casing is modelled for the characters slugs consist of, and the versions' labels in the details are not modelled.
- Popup.GetPendingAgreements: the order of the documents is not fixed, as in the code, and the document name, the version label, the PDF link and the objection text are not modelled.
- RateLimiter.SlidingWindowRateLimiter.Allow: keys are opaque values; the clock is assumed not to go back.
- Reconciler.Registry.Reconcile: audiences and document types go through one generic method, since both loops are the same; absent optional fields are taken as normalised, and the log lines are left out.
- Idempotency.IdempotencyStore.Accept: the waiting between polls has no duration.
- The admin's own reminder button, which overwrites the row and advances the counter, is left out; so are reminders' mail contents.
- Kill switches, event recorder, audit log, confirmation mails, PDF storage, webhooks, hashes, tokens and generated ids are left out: they do not affect the modelled state, or only supply fresh values.
- Fields that only display (labels, names, storage keys, actors, IP addresses, notes) are left out of the records.
- Ties in the order of versions are broken by creation order, as in the in-memory repositories.
- Controllers, guards, modules, configuration loading, the administration interface, pagination and search, acceptance links, hosted pages and template building are left out.
