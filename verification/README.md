# Service desk: durable work and the ticket lifecycle

A Dafny model of the parts of the service desk that several actors drive at once, and proofs about every run of them.
`dafny verify dfyconfig.toml` checks the whole project.

| files | what they model |
|---|---|
| `Steps`, `TaskQueue` | the meaning of one workflow step; the task table with workers, forms, approvers and resumes as interleaved steps |
| `ApprovalGate`, `VerdictOrigin`, `TaskOrder`, `TaskBounds`, `QueueWitnesses` | gate safety, whose verdict passes a step, exclusion, order and termination over all runs; a reachable state for each side condition |
| `Transparency` | any run, seen from one task, against an interpreter that never stops |
| `Execution`, `StepMeaning`, `WorkflowEngine` | a claim run to its end, and what each kind of step means for it; the engine as classes and loops |
| `Outbox`, `OutboxAccounts`, `OutboxWaits` | webhook deliveries under leases, with clock readings, SELECT, UPDATE, POST, mark and crash as separate steps |
| `Tickets`, `TicketLaws`, `TicketService` | the status machine, who may do what, the stage timestamps, the audit log, the backfill that replays it, the progress bar |
| `Breach`, `BreachChecker` | SLA alerts: claim, read-back by timestamp, and the ticket service in between |
| `Summary` | AI panel snapshots, human locks, model calls in flight |
| `Hub` | event streams: subscribe, publish and cancel around one mutex |
| `Manager`, `Knowledge` | dashboard aggregates; article links, curation and matching |

Each protocol is written twice. A state machine (`Label`, `Enabled`, `Apply`, `Run`) has one step for every point at which
another actor can come in, and the main results quantify over all its runs. Classes with loops follow the Go methods, and
their `ensures` equate the new state with the same specification functions.

## What the model takes as given

- Calls into templates, HTTP, the model and other tables are parameters (`Env`, `Verdict`, `reply`, `up`); every theorem holds for
  every value of them. A lost task save or mark write is a worker crash.
- Context JSON is the identity. Approval ids pass through a float in the source, so they are assumed below 2^53.
- One service call on a ticket is one step with one timestamp, and audit appends succeed. Ticket rows are saved whole, so two
  overlapping calls could undo each other; that is outside the model. Operation times never decrease.
- The backfill reads a ticket's log in append order. The only entries a single call writes with one timestamp are the two of the
  reject cascade, and `CascadeOrderIsIrrelevant` shows that their order does not matter.
- A webhook UPDATE runs less than a lease after its clock reading. Finality and, in its simplest form, exclusive leases also need every
  mark to be written inside its lease; the bound on posts charges late marks instead. Rows below say which condition a result has.
- SLA claim times strictly increase (`ReadBackOwnIff` shows why). Service and ticket ids are positive.
- A workflow's step list has at most 2^30 entries, the index a failed condition jumps to.

## Where the code falls short of its comments

Each is a lemma with a reachable state or an exact condition; the model keeps the code as it is.

- The guarded UPDATE of a task claim re-checks `status` but not the rest of the snapshot. A slow worker can take a task back to
  an earlier step (`StaleClaimRewindsTask`), make it be claimed more often than its steps and attempts allow
  (`StaleClaimAddsClaims`), and erase a rejection so that the question is put again (`StaleClaimErasesRejection`). A claim keeps the
  order if and only if its snapshot's step is not behind (`ClaimKeepsOrderIff`), and keeps a rejected task rejected if and only if
  its snapshot is the row (`ClaimKeepsDoomedIff`). Exclusion, the attempt limit and the gate hold with split claims.
- `Resume` reads, checks and saves without a guard. Exclusion survives the save if and only if nobody runs the task then, order if
  and only if the snapshot is also not behind the steps that succeeded (`StoreKeepsExclusiveIff`, `StoreKeepsOrderIff`,
  `StaleResumeBreaksExclusion`).
- `DecideApproval` lists the waiting tasks and then resumes them, and `Resume` never compares the pending approval. If the task has asked
  anew meanwhile, the older verdict lets it through while the newer question is open (`OvertakenVerdictOpensGate`). A resume keeps each
  verdict with its own approval if and only if every yes it saves meets a granted pending approval (`StoreKeepsOwnIff`); comparing the
  pending id would be enough (`NamedRunsAreOwn`), and then only a step's own pending approval passes it (`StepsPassOnTheirOwnApproval`).
- A failed step stores the step index but not the outputs gathered in that claim (`FailedClaimKeepsOldContext`,
  `RetryLosesOutputs`), so pause and resume are transparent up to the first error.
- A rejection does not stop a workflow at once: it is an error like any other, and the task retries it until its attempts are used up
  (`RejectionIsFinal`).
- A saved HTTP response under a reserved key, or two approval steps with one id, opens the gate (`SavedResponseOpensGate`,
  `TwinIdsOpenGate`). Step by step, contexts stay backed by real decisions if and only if the step does neither (`ContextsStayGoodIff`).
- A webhook mark addresses its row by id alone. Written after the lease ran out it can hand one delivery to two workers or take a
  delivered row back to pending (`LateMarkBreaksExclusivity`, `LateMarkUndoesDelivery`); `FinishKeepsLeasesIff` and
  `LateMarkKeepsEndIff` say exactly when it does not. An UPDATE a whole lease after its clock reading can make another worker's counter
  old (`LateUpdateBreaksFreshness`, exactly when: `UpdateKeepsLeasesIff`).
- The summary service takes any failed read of the latest snapshot for an empty panel and drops every lock (`EditsOutrankModel`).
- Regenerating one field unlocks it when the model's reply lands, not when it was asked for: a human edit made in between is thrown
  away (`OldReplyUndoesEdit`).
- The trend's tickets are fetched from fourteen days before now, but its first point is thirteen days before. Those resolved on the oldest
  UTC date fetched fall in no bucket, every day (`OneBucketIff`, `SomeTicketIsMissed`, `TrendAgreesWithTile`).
- Trend points are keyed by UTC date but stepped in local calendar days. On the day clocks go forward two points can fall on one date,
  and then tickets count twice (`TrendConservesIffDistinct`, `ShortDayRepeatsIff`, `SpringForwardCountsTwice`). When clocks go back a date
  can be skipped (`LongDaySkipsIff`).

## Model

| member | source | states |
|---|---|---|
| `ApprovalGate.GateHolds` | internal/workflow/engine.go:264-279 | in every run, with stale claims, stale resumes, forms and crashes, when a task enters step k each approval step before k was asked for by this task at that step and afterwards decided with true |
| `ApprovalGate.StoredStepIsApproved` | internal/workflow/engine.go:155-187 | the same for the stored StepIndex: it has passed only approved approvals, except by a failed condition's jump |
| `ApprovalGate.DecisionBacked` | internal/workflow/engine.go:348-373 | a verdict handed to `Resume` belongs to an approval that this task asked for at that very step and names as pending when the decision is made |
| `VerdictOrigin.StepsPassOnTheirOwnApproval` | internal/workflow/engine.go:264-279 | in every run whose resumes meet the condition below, stale claims and crashes allowed, a worker about to pass an approval step has a context whose pending approval was asked for by this task at this step and then decided with true |
| `VerdictOrigin.StoreKeepsOwnIff` | internal/workflow/engine.go:117-135 | one resume keeps every yes with its own approval if and only if each yes it saves for the step it read meets a granted pending approval there, which holds whenever the row read still names the approval decided |
| `VerdictOrigin.NamedRunsAreOwn` | internal/workflow/engine.go:356-370 | runs in which each resume would compare the pending id before it saves meet that condition throughout |
| `QueueWitnesses.OvertakenVerdictOpensGate` | internal/workflow/engine.go:356-370 | with every claim and resume on the current row, a verdict overtaken by a form and a new question lets the task pass while the approval it names as pending is undecided |
| `Steps.StepWrites` | internal/workflow/engine.go:200-284 | the only ways a step brings a new value under a context key: its own resumed marker, its response key, its own id, its pending approval |
| `Steps.ReservedKeysApart` | internal/workflow/engine.go:210-265 | the three reserved key families never collide and each key determines its step id |
| `QueueWitnesses.SavedResponseOpensGate` | internal/workflow/engine.go:315-318 | why the gate forbids saving a response under a decision key: a reachable state behind an approval nobody was asked for |
| `QueueWitnesses.TwinIdsOpenGate` | internal/workflow/engine.go:264-279 | why the gate needs distinct approval ids: one decision lets the task through both steps |
| `ApprovalGate.ContextsStayGoodIff` | internal/workflow/engine.go:264-279 | for each step of any plan: whatever is answered, it leaves every context backed by this task's own requests and decisions if and only if it saves under no approval's reserved key and shares no approval's id |
| `TaskOrder.NoTaskRunsTwice` | internal/repo/workflow.go:64-81 | however SELECTs and guarded UPDATEs interleave, no two workers run one task, as long as no resume is saved over a task being run |
| `TaskOrder.StoreKeepsExclusiveIff` | internal/workflow/engine.go:117-135 | saving a resume keeps exclusion if and only if nobody is running the task |
| `QueueWitnesses.StaleResumeBreaksExclusion` | internal/workflow/engine.go:117-135 | two resumes that read the same waiting row reach a state with two workers on one task |
| `TaskOrder.StepIndexNeverDecreases` | internal/workflow/engine.go:155-181 | in runs whose claims and resumes are not behind their row the stored StepIndex never goes back |
| `TaskOrder.ClaimKeepsOrderIff` | internal/repo/workflow.go:64-81 | one claim keeps the step order if and only if its snapshot's step is not behind the row |
| `TaskOrder.StoreKeepsOrderIff` | internal/workflow/engine.go:117-135 | one resume keeps the step order if and only if nobody runs the task and its snapshot is not behind the steps that succeeded |
| `QueueWitnesses.StaleClaimRewindsTask` | internal/repo/workflow.go:70-80 | a claim that trusts an old SELECT snapshot stores a smaller StepIndex |
| `TaskOrder.StepsSucceedOnceInOrder` | internal/workflow/engine.go:155-181 | in runs whose claims and resumes are not behind their row the steps of a task succeed in strictly increasing order, so each at most once |
| `TaskBounds.ClaimsAreBounded` | internal/workflow/engine.go:155-187 | in every run a task is claimed at most 2 * steps + resumes + 1 times, plus 2 * steps for each claim or resume that acted on an outdated snapshot |
| `QueueWitnesses.StaleClaimAddsClaims` | internal/repo/workflow.go:64-81 | one stale claim and no resume: a one-step task is claimed five times, as many as that bound allows and two more than without |
| `TaskBounds.AttemptsStayBelowLimit` | internal/workflow/engine.go:158-171 | in every run, split claims and stale resumes included, a task saved as pending or waiting has attempts left |
| `TaskBounds.RejectionDooms` | internal/workflow/engine.go:265-268 | a resume at the approval step with anything but a boolean true, the string "true" included, while nobody runs the task leaves it doomed |
| `TaskBounds.RejectionIsFinal` | internal/workflow/engine.go:158-171 | with claims and resumes of it on the current row, and no resume saved over a running task, a doomed task never leaves its step, is claimed at most as often as it has attempts left, and the last such claim leaves it failed |
| `TaskBounds.ClaimKeepsDoomedIff` | internal/repo/workflow.go:64-81 | one claim of a doomed pending task keeps it doomed if and only if it acts on the row as it is |
| `QueueWitnesses.StaleClaimErasesRejection` | internal/repo/workflow.go:64-81 | a claim from before the question was put brings a rejected task back to waiting for a new approval |
| `Transparency.PausesAreTransparent` | internal/workflow/engine.go:117-187 | in every run a task whose claims and resumes act on its current row, none of them crashing, has up to its first error the effects, in order, of one uninterrupted interpretation fed the same inputs and outside answers; where it has stopped both have the same context or the same error |
| `Execution.ExecuteIsTurns` | internal/workflow/engine.go:137-190 | a claim run to its end is a run of the state machine that leaves the same table and an idle worker |
| `Execution.FailedClaimKeepsOldContext` | internal/workflow/engine.go:158-171 | a claim that ends in an error stores the step it failed at and the context it started from |
| `Transparency.RetryLosesOutputs` | internal/workflow/engine.go:158-171 | after one failed write and a clean retry a response saved before the failure is gone |
| `WorkflowEngine.Engine.Trigger` | internal/workflow/engine.go:66-83 | one pending task per subscribed active workflow, in table order; all other tasks and their plans untouched |
| `WorkflowEngine.SubscribedExactly` | internal/repo/workflow.go:31-35 | the workflows triggered are exactly the active ones with that trigger, each once, in order |
| `WorkflowEngine.Engine.ClaimNext` | internal/repo/workflow.go:64-81 | run without interference, the least due pending task becomes processing and is returned; none only if none is due |
| `WorkflowEngine.Engine.RunStep` | internal/workflow/engine.go:200-284 | the in-place step changes context, step index, approvals and outside effects exactly as the step's meaning says |
| `StepMeaning.ConditionDecides` | internal/workflow/engine.go:202-207 | a claim at a condition whose field prints as expected is the claim from the next step with the same context; any other one, an absent field included, ends done with the same context and nothing more done |
| `StepMeaning.FormWaits` | internal/workflow/engine.go:209-214 | a claim at a form waits with the form marked, and goes on with the same context once it is marked |
| `StepMeaning.RequestIsSent` | internal/workflow/engine.go:286-319 | a request goes out once to the rendered address, by GET unless told otherwise; an answer is saved where asked and the claim goes on, anything else fails the step |
| `StepMeaning.TemplateIsKept` | internal/workflow/engine.go:219-225 | the output goes under the step's id, and into one note of the kind its target names if there is a ticket |
| `StepMeaning.NoteIsPosted` | internal/workflow/engine.go:227-235 | one note with the rendered body, internal or not as the step says, on the task's ticket; none without a ticket |
| `StepMeaning.ApprovalAsks` | internal/workflow/engine.go:264-279 | a verdict of true lets the claim go on, any other verdict fails it, and without one an approval is asked for and the claim waits with its id |
| `StepMeaning.PlanEnds` | internal/workflow/engine.go:137-190 | past its last step a claim ends done with the context it has; without a definition it ends failed at the same step |
| `WorkflowEngine.Engine.ExecuteTask` | internal/workflow/engine.go:137-190 | the in-place loop saves the row, and has the effects, that the specification of a claim gives |
| `WorkflowEngine.Engine.Resume` | internal/workflow/engine.go:117-135 | a waiting task gets each input value over its context, keeps the rest of it, and is pending now at the same step with the same attempts; any other task is left alone |
| `WorkflowEngine.Engine.DecideApproval` | internal/workflow/engine.go:348-373 | a task changes only by getting the verdict for a step it holds this approval pending for; on success every such task got it; failure after a known approval needs one task holding it under two keys |
| `Outbox.LeasesAreExclusiveAndFresh` | internal/repo/webhook.go:101-122 | in runs whose UPDATEs and marks meet the exact conditions below, at most one worker holds an unexpired lease on a delivery, and the attempt counter it carries is the stored one |
| `Outbox.TimelyRunsAreHarmless` | internal/repo/webhook.go:66-82 | they do whenever every UPDATE and every mark comes less than a lease after its clock reading |
| `OutboxAccounts.PostsAreBounded` | internal/webhook/dispatcher.go:76-130 | with UPDATEs in time and marks as late as they like, a delivery is posted at most three times plus once per claim that crashed or still holds it past its lease plus once per late mark |
| `OutboxAccounts.LeasesAreAccountedFor` | internal/webhook/dispatcher.go:123-127 | in the same runs every lease is retried, crashed, ended or still held, at most two are retried, ends exceed one only by late marks, and the stored counter is the number of leases |
| `Outbox.FinalRowsStay` | internal/repo/webhook.go:124-136 | in runs whose UPDATEs and marks come in time, once delivered or failed a row never changes again |
| `Outbox.OnlyMarksEndRows` | internal/webhook/dispatcher.go:106-128 | a row leaves pending only by the mark of its holder: delivered exactly on acceptance, failed only at the attempt limit or without a hook |
| `Outbox.LateMarkBreaksExclusivity` | internal/repo/webhook.go:128-136 | a mark after the lease ran out reaches a state with two unexpired leases on one delivery |
| `Outbox.LateMarkUndoesDelivery` | internal/repo/webhook.go:128-136 | a mark after the lease ran out takes a delivered row back to pending |
| `Outbox.FinishKeepsLeasesIff` | internal/repo/webhook.go:124-136 | a mark, late or not, keeps leases exclusive and fresh if and only if it leaves status and due time of a row leased to another worker |
| `Outbox.LateMarkKeepsEndIff` | internal/repo/webhook.go:124-136 | a mark on an ended row comes from an expired lease, and keeps the row's end if and only if it accepts a delivered row or gives up a failed one |
| `Outbox.UpdateKeepsLeasesIff` | internal/repo/webhook.go:108-121 | an UPDATE, late or not, keeps leases exclusive and fresh if and only if no other worker has picked the row at a reading still good by which the new lease has run out |
| `Outbox.LateUpdateBreaksFreshness` | internal/repo/webhook.go:108-121 | an UPDATE a lease after its clock reading leaves another worker's lease with an old counter |
| `Outbox.Dispatcher.ClaimNext` | internal/repo/webhook.go:101-122 | run without interference, the least pending delivery due is leased for thirty seconds and its counter raised; none only if none is due |
| `Outbox.Dispatcher.ProcessOne` | internal/webhook/dispatcher.go:76-130 | the undisturbed pass leases the least due delivery, posts at most once and marks it by outcome, attempts and backoff; nothing happens if none is due |
| `OutboxWaits.MarksSayWhen` | internal/webhook/dispatcher.go:106-128 | in every run a refused delivery is due again two seconds after its mark at the first attempt, four at the second, and has failed from the third on; accepted is delivered, no hook has failed |
| `OutboxWaits.WaitsDouble` | internal/webhook/dispatcher.go:124 | the wait of a retry is twice that of the one before |
| `OutboxWaits.UpdateLeases` | internal/repo/webhook.go:108-121 | an UPDATE wins exactly on a pending row due by its clock reading, adds one attempt and sets the due time thirty seconds after the reading |
| `OutboxWaits.NobodyComesEarly` | internal/repo/webhook.go:101-122 | until the next mark, whoever comes to hold a delivery has read the clock no earlier than it was due, however late SELECTs and UPDATEs run |
| `Outbox.ProcessOneIsSteps` | internal/webhook/dispatcher.go:76-130 | that pass is a run of the state machine that leaves the same rows |
| `Tickets.NextStatus` | internal/service/statemachine.go:52-71 | the table lookup and cascade loop visit exactly the path of the action and end on its last status |
| `Tickets.LogTellsTheTicket` | internal/service/ticket.go:140-191 | after any calls by any actors the log alone reconstructs each ticket's status, ack, resolve and reopen overlay, and every status change starts where the log had led |
| `Tickets.WorkIsCounted` | internal/service/ticket.go:140-171 | resolutions + rejections + [in progress] = reopens + [not new] |
| `Tickets.StageBarIsRight` | internal/httpapi/stagebar.go:36-60 | the bar is hidden exactly for a closed ticket last closed by rejection, stands at Resolve exactly while resolved or closed by confirmation; Rejected never rests; mitigation does not follow resolution |
| `TicketLaws.StagesAreRight` | internal/httpapi/stagebar.go:36-70 | every stage of the bar from the log: Resolve while resolved or closed by confirmation, else Mitigate if the ticket was ever mitigated, else Ack if anybody ever owned it, else Detect |
| `Tickets.OneDraftPerResolution` | internal/service/ticket.go:175-183 | as long as proposals succeed a ticket has one draft for each of its resolutions |
| `TicketService.TicketService.Transition` | internal/service/ticket.go:128-197 | the method changes the row, the drafts and the log as the specification of a transition says, and nothing on refusal |
| `TicketLaws.StatusMovesExactly` | internal/service/statemachine.go:17-39 | all the ways a call moves a ticket's status, by the call, the status before and who calls, and no others |
| `TicketLaws.OnlyAdminOrCreatorReopens` | internal/service/ticket.go:134-138 | in any run a call takes a ticket out of Closed if and only if it is a Reopen of it by an admin or by the actor whose Create made it; it is then in progress |
| `TicketLaws.ReopensAreWarranted` | internal/service/ticket.go:126-138 | in any run every log entry from Closed to In Progress comes from such a call |
| `TicketLaws.ColumnsMoveExactly` | internal/service/ticket.go:214-364 | owner, stamps, reopen count, alert stamp and fields of a ticket change only by the call meant to change them, and as it says; creator, queue, creation, detection and due time never do |
| `TicketLaws.CreateStarts` | internal/service/ticket.go:69-116 | a new ticket's whole row and its one event; its detection time is the reporter's only if the reporter may set it |
| `TicketLaws.PlainEntries` | internal/service/ticket.go:214-364 | a change of owner, a mitigation and an edit log exactly one event saying what they did, and a refused one logs none |
| `TicketService.TicketService.SetOwner` | internal/service/ticket.go:214-258 | assign and pickup: owner, first ack, New to In Progress, one event; refused for an unknown ticket or an engineer's non-member |
| `TicketService.TicketService.BackfillStageTimestamps` | internal/db/backfill.go:27-74 | exactly the rows without a detection time get the replay of their own events |
| `TicketService.BackfillCatchesUp` | internal/db/backfill.go:33-60 | on every run the replay gives a legacy row the overlay that the live service keeps |
| `TicketService.BackfillRestores` | internal/db/backfill.go:27-74 | over a whole table whose overlay was lost the backfill restores every row but its detection time |
| `TicketService.BackfillIsIdempotent` | internal/db/backfill.go:27-74 | a second backfill changes nothing |
| `TicketService.CascadeOrderIsIrrelevant` | internal/db/backfill.go:35-37 | the two same-time events of a rejection replay alike in either order |
| `Breach.AlertsAreConserved` | internal/service/sla_breach.go:50-71 | in every interleaving a ticket is alerted at most once per reopen plus once if it is stamped now |
| `Breach.ReadBackIsOwn` | internal/repo/ticket.go:78-83 | a read-back returns only the ticket its own claim stamped, and nothing only if that stamp has been cleared |
| `Breach.ClaimsTakeTheOverdue` | internal/repo/ticket.go:62-77 | a claim takes a ticket exactly when one that is not closed, not alerted and past its due time exists, and then the first of those, writing its stamp and nothing else |
| `Breach.NobodyIsAlertedEarly` | internal/repo/ticket.go:62-70 | in every run a ticket that carries a stamp was due before the time it was stamped with |
| `Breach.RunKeepsDesk` | internal/service/sla_breach.go:60-63 | breach checks between ticket calls leave everything the log says about tickets true |
| `BreachChecker.BreachChecker.ProcessOne` | internal/service/sla_breach.go:50-71 | one pass stamps, logs and alerts the first eligible ticket, the same one; or finds no overdue one and changes nothing |
| `BreachChecker.BreachChecker.Drain` | internal/service/sla_breach.go:41-44 | the drain loop ends with every ticket that is not closed and was due before its last claim time stamped, having alerted exactly the newly stamped tickets, each once, each after its due time |
| `BreachChecker.ReadBackOwnIff` | internal/repo/ticket.go:79-81 | a claim reads its own ticket back if and only if no later ticket carries its stamp; otherwise it alerts one of those instead |
| `Summary.EditsOutrankModel` | internal/service/aisummary.go:78-153 | whatever replies land, an edited field keeps its value and its lock until the next request about it is made, if and only if no snapshot meanwhile was built on a failed read and no regeneration of that field asked for before the edit landed after it |
| `Summary.OldReplyUndoesEdit` | internal/service/aisummary.go:129-153 | a regeneration of one field asked for before an edit and landing after it drops the edit and its lock, with every read good |
| `Summary.PanelShowsReply` | internal/service/aisummary.go:78-106 | a panel reply is what the panel then shows, field by field, except that a locked field with a value keeps it; locks stay; after a failed read the reply alone is shown, unlocked |
| `Summary.FieldShowsReply` | internal/service/aisummary.go:129-153 | a single-field reply is what that field then shows, unlocked, empty if the reply lacks it; every other field and lock stays |
| `Summary.EditShows` | internal/service/aisummary.go:111-124 | an edit is what its field then shows, locked; every other field and lock stays |
| `Summary.LocksStayClean` | internal/service/aisummary.go:111-153 | in every run and snapshot locked names are distinct, valid and present |
| `Summary.StaleBaseLosesEdit` | internal/service/aisummary.go:93-105 | were latest read before an edit and persisted after it, the edit would survive only if it changed nothing |
| `Summary.AISummaryService.Regenerate` | internal/service/aisummary.go:78-106 | the merge loop appends the snapshot that the specification gives: locked fields of the latest snapshot over the reply |
| `Summary.AISummaryService.RegenerateField` | internal/service/aisummary.go:129-153 | one field is taken from the reply and unlocked, the rest kept; an unknown field changes nothing |
| `Summary.AISummaryService.Latest` | internal/service/aisummary.go:157-174 | the view lists all fields in display order with their values and locks |
| `Hub.NoSendAfterClose` | internal/sse/hub.go:49-93 | with streams coming and going during publications no send reaches a closed channel, and the map lists exactly the streaming channels with no empty set |
| `Hub.StreamTellsWhatWasPublished` | internal/sse/hub.go:71-93 | what a stream has read plus what it holds unread is what was published to its user while subscribed, in order, less exactly the messages that found sixteen unread |
| `Hub.FirstSixteenArrive` | internal/sse/hub.go:50-52 | a stream misses none of its first sixteen messages, however slowly it reads |
| `Hub.VisitOrderIsIrrelevant` | internal/sse/hub.go:85-92 | every order of visiting the channels, with nothing in between, gives the same channels |
| `Hub.Hub.Publish` | internal/sse/hub.go:71-93 | the nested loops offer the message once to every channel of a watcher or the assignee and touch no other channel |
| `Hub.Hub.Cancel` | internal/sse/hub.go:58-67 | off the map first, an emptied user entry too, then closed |
| `Manager.TrendConservesIffDistinct` | internal/httpapi/manager_handlers.go:234-271 | the daily sums and counts of all four metrics add up to one accumulation over the same tickets, for all ticket lists, if and only if the points are distinct days |
| `Manager.OneBucketIff` | internal/httpapi/manager_handlers.go:79-83 | where days have twenty-four hours, a ticket fetched for n points falls in exactly one bucket, unless it was resolved n dates before today's, and then in none |
| `Manager.SomeTicketIsMissed` | internal/httpapi/manager_handlers.go:79-83 | at every moment the fetch covers a time on that date |
| `Manager.TrendAgreesWithTile` | internal/httpapi/manager_handlers.go:202-220 | over the fetched tickets the trend's sums and counts are those of one mean over them less exactly the samples of that date |
| `Manager.ComputeMTTx` | internal/httpapi/manager_handlers.go:202-220 | the loop yields the exact mean of the nonnegative deltas of each metric, none without samples |
| `Manager.TicketIsSampled` | internal/httpapi/manager_handlers.go:176-200 | what one more ticket adds to each mean, read off its stamps: the interval between the two stamps if both are there and in order, and nothing otherwise |
| `Manager.MeanIs` | internal/httpapi/manager_handlers.go:274-300 | a mean times its samples is their sum; without samples there is none and the trend plots zero |
| `Manager.ComputeMTTxTrend` | internal/httpapi/manager_handlers.go:234-271 | every point holds the means over exactly the tickets resolved on its day |
| `Manager.ShortDayRepeatsIff` | internal/httpapi/manager_handlers.go:238-241 | two points a twenty-three-hour day apart fall on one UTC date if and only if the first lies in the first hour of its date |
| `Manager.SpringForwardCountsTwice` | internal/httpapi/manager_handlers.go:234-271 | at 01:30 in Berlin on 31 March and 1 April 2024 some ticket lists are counted twice |
| `Manager.LongDaySkipsIff` | internal/httpapi/manager_handlers.go:238-241 | a step over a twenty-five-hour day skips a UTC date if and only if it starts in the last hour of one |
| `Manager.SteadyDates` | internal/httpapi/manager_handlers.go:237-241 | stepping back by days of twenty-four hours gives the dates up to today's, as many as there are points, each once |
| `Manager.LoadsAreTheActiveTickets` | internal/httpapi/manager_handlers.go:138-170 | staff loads add up to the number of New and In Progress tickets assigned to staff |
| `Manager.NotEveryoneIsOverloaded` | internal/httpapi/manager_handlers.go:157-169 | on a nonempty staff somebody is not flagged, with the threshold in exact arithmetic |
| `Manager.FlagIsAboveAverage` | internal/httpapi/manager_handlers.go:157-169 | a member is flagged exactly when load times staff exceeds the total by more than the staff |
| `Manager.EngineerLoads` | internal/httpapi/manager_handlers.go:138-170 | one row per staff member in order with its active tickets and the flag against average plus one |
| `Manager.QueueStats` | internal/httpapi/manager_handlers.go:109-132 | one row per queue in order with its open and its overdue tickets |
| `Manager.QueueCountsTickets` | internal/httpapi/manager_handlers.go:109-132 | the two counts are the numbers of its tickets that are not closed, and of those past their due time |
| `Manager.GroupsConserve` | internal/httpapi/manager_handlers.go:109-132 | counting per distinct key loses nothing and counts nothing twice |
| `Knowledge.SyncShowsTheWanted` | internal/service/kb.go:194-220 | after a sync the article shows the wanted services that exist, every wanted id has a row, only unwanted visible rows are gone, other articles keep theirs |
| `Knowledge.RetryHeals` | internal/service/kb.go:194-220 | repeating an attempt that broke off anywhere ends where an unbroken one would have |
| `Knowledge.KBService.SetServices` | internal/service/kb.go:194-220 | for any list with repeats the loops reach the synced links, or stop somewhere between the old and the synced ones |
| `Knowledge.PublishedMeansApproved` | internal/service/kb.go:225-241 | over any operations an article is published exactly when it was approved as a draft, and shows that first approval for good |
| `Knowledge.ContentIsLastWritten` | internal/service/kb.go:174-192 | over any operations an article shows the content last proposed or edited |
| `Knowledge.KBService.ProposeFromTicket` | internal/service/kb.go:43-91 | an unpublished, unapproved draft with the service's link, or without it when the link write fails |
| `Knowledge.ProposalLinks` | internal/service/kb.go:84-88 | a proposal adds the link to its service, if it has one, and no other |
| `Knowledge.MatchForSymptom` | internal/service/kb.go:105-125 | the first of the best-scoring articles, or none exactly when all score zero |
| `Knowledge.Jaccard` | internal/service/kb.go:137-149 | shared tokens over all tokens |
| `Knowledge.SimilarityIsShare` | internal/service/kb.go:137-149 | the score times the number of all tokens is the number of tokens on both sides; zero without tokens on a side |
| `Knowledge.SimilarityRange` | internal/service/kb.go:137-149 | scores lie in [0, 1]: one for equal nonempty sets only, zero for sets without a common token only |

## Left out

- HTTP handlers, templates, pages, routing, mail, the model client and the bodies of HTTP requests: user interface and foreign calls.
- JSON, text templates, SQL dialects and full-text search: library behaviour. The row order of a SELECT is modelled where the code relies on it.
- Authentication, tokens, tenancy, and roles beyond the four facts about an actor that ticket calls ask for.
- `Dispatcher.Dispatch` and `ListActiveForEvent`: one delivery per matching hook; deliveries enter the model one by one.
- `Engine.Run`, `Dispatcher.Run` and the tickers: the loops of workers are the runs of the state machines.
- Error texts: a step's error is a short tag; statuses, attempts and steps are exact.
- Labels and wording of the progress bar, `humanDuration`, sparkline geometry, floating-point rounding of means and scores (they are exact reals).
- `tokenSet`: matching starts from token sets. The texts of a proposed article and its link to a similar one are not modelled.
- Watchers, labels, notes, problems, categories, queues and other thin tables; `auto_assign` changes an assignee without an event, so the assignee is not part of the replay.
- Manager.Bucket.AddTicket: takes a day's four averages together, where the dashboard tile keeps four local ones.
- Outbox.Dispatcher.ProcessOne: is the pass nobody disturbs; interleaved passes are the runs of the state machine.
- WorkflowEngine.Engine.ClaimNext: is SELECT and UPDATE back to back; split claims are in the state machine.
- Summary.AISummaryService.Regenerate: starts where the model's reply has been parsed, with latest and persist in one step.
