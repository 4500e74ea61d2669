# EcoTrack: what its shared tables keep

EcoTrack is a multi-tenant service for reporting, claiming and cleaning up hazards. Most of its
logic is a relational state that several modules change, each relying on what the others keep.
This project models that state in Dafny 4.11 and proves what holds of it over every run.

`dafny verify dfyconfig.toml` checks everything. There are no assumptions beyond the definitions.

| file | models |
|---|---|
| `Common.dfy` | optional values, results, counting and pigeonhole lemmas |
| `Spatial.dfy` | the bounding-box pre-filter of the radius search |
| `Slugs.dfy` | the suffix loops that find a free slug, and the organisation `slugify` |
| `Stages.dfy` | the workflow stage editor and its positions |
| `Workflow.dfy` | incidents, stage rules, tasks and events as triggers, across services |
| `WorkflowOutcomes.dfy` | what each of those requests comes to, column by column |
| `Accounts.dfy` | users, their single membership, and what row-level security shows them |
| `Tasks.dfy` | tasks and assignments as three services change them |
| `Events.dfy` | RSVP rows against the stored counter as three services change them |
| `Completion.dfy` | tasks, events and the incident lifecycle as one state |
| `RsvpProtocol.dfy` | `rsvp` and `cancelRsvp` interleaved statement by statement |
| `InviteLinks.dfy` | `accept` and `revoke` of invite links interleaved |
| `InviteOutcomes.dfy` | what their steps do, and what they come to |
| `ClaimProtocol.dfy` | claims of pooled incidents interleaved |
| `Outbox.dfy` | the notification outbox with overlapping cron ticks |
| `Reminders.dfy` | whom the reminder handlers write to |
| `RowSecurity.dfy` | session variables on pooled connections and the row-level-security policies |

Three kinds of model are used.

* A request that runs alone is a function `Op -> State -> Result`, a run is a sequence of requests,
  and an error leaves the state as it was (the request is one transaction). Beside it stands a class
  whose methods make the same change row by row, with the loops of the source, and are proved equal
  to the function.
* A protocol between concurrent transactions is a transition system over single SQL statements under
  READ COMMITTED: a blocked UPDATE looks at the latest committed row again, writes stay private until
  COMMIT, and any transaction may crash at any point. A run is any sequence of steps of any number of
  transactions.
* Pure calculations are functions.

## What the proofs found

* The bounding box is complete except in one family of inputs: radius 0, the centre exactly on the
  antimeridian and below 89 degrees. Then the same place written with the opposite longitude is
  dropped. `PrefilterComplete` gives the exact condition. No caller sends radius 0: the nearby query asks
  for 100 m or more (src/modules/incidents/dto/nearby-incidents.query.ts:28) and a service area has a
  radius of at least 1 km, so every search that is made is exact (`SearchIsExact`).
* `slugify` of a slug is that slug exactly when the cut at 128 characters did not leave a dash at its
  end (`SlugifyAgain`).
* Deleting an account keeps the history of a task exactly when the user is in an organisation at that
  moment and the task belongs to it, or the user is a platform admin besides, or an earlier deleted
  account already stands on the task. Rows that row-level security hides from the repointing UPDATE are
  then removed by the cascade (`HistorySurvivesIff`, `HistoryLostExample`). The comment of
  `reassignTaskAssignments` speaks of every row.
* The RSVP counter obeys a conservation law over every run: the counter of a live event is its rows
  plus one for each account that was deleted while it held a seat there outside its own organisation
  (`SeatsAreAccountedFor`). So the counters end exact if and only if there was no such deletion
  (`RunExactIff`); a move by email invitation or an RSVP by a platform admin elsewhere makes one
  possible (`SwitchLeaksSeat`).
* The outbox sends each stored notification at most once, but push messages leave before COMMIT, so a
  tick that rolls back can repeat them (`PushCanRepeat`). The comment that a crash never duplicates
  pushes holds for stored rows only.
* `updateStage` loads the incident without checking its organisation. Ownership of stages survives
  only because of the WITH CHECK clause (`ForeignMoveIsStopped`, `UncheckedMoveBreaksOwnership`).
* `accept` looks at the user's membership before it waits for the link's row and not again. So a member can
  still be moved to another organisation by a link, exactly if a redemption of theirs is past that look,
  leads elsewhere and is not bound to find the link used up (`MemberMovedIff`, `TwoLinksMoveAMember`).
* `reorderStages` asks for every stage exactly once but does not look for repetitions. The deferred
  constraint lets some lists with repetitions commit (`RepeatedListCommits`), and `ReorderCommitsIff` says
  which; the positions are 0..n-1 even then.
* A redeemed membership is counted unless the final COMMIT fails after the grant; the difference is
  accounted for exactly (`GrantsAreAccountedFor`).

Beside the methods listed below, the classes hold methods without a loop that make one change each
(`Claim`, `Reject`, `MarkDuplicate`, `MarkInProgress`, ...). They are proved equal to their step in the
same way.

## Model

| member | source | states |
|---|---|---|
| Spatial.PrefilterComplete | src/database/spatial.ts:20-59 | for any metric that charges more than 110 km per degree, every place within the radius lies in the box, in all branches, if and only if the search is not the radius-0 search on the antimeridian |
| Spatial.SearchIsExact | src/database/spatial.ts:40-59 | off that family, and so for every positive radius, filtering by box and radius selects the same incidents as the radius alone, for every set of incidents |
| Spatial.ReachableIsInBox | src/database/spatial.ts:20-38 | any path no longer than the radius ends inside the latitude and longitude range, clamping, pole and antimeridian included |
| Spatial.SeamIsDropped | src/database/spatial.ts:34-37 | the concrete place that the radius-0 search on the antimeridian loses |
| Spatial.BoxIsTight | src/database/spatial.ts:25-37 | the box is no larger than the assumed rates make it: whatever it admits lies within the radius along the meridian and, if longitude is filtered, along the shortest parallel of the box |
| Spatial.BoxOutcome | src/database/spatial.ts:20-38 | each bound of the box, and that longitude is filtered exactly if the farther edge stays below 89 degrees and the span there stays on this side of the antimeridian |
| Spatial.LongitudeDrift | src/database/spatial.ts:30-37 | a path that stays within the radius never drifts further in longitude than the span sized at the edge farthest from the equator |
| Spatial.CrossingCostsTooMuch | src/database/spatial.ts:35 | when the box keeps a longitude range, going round the antimeridian costs more than the radius |
| Slugs.UniqueSlug | src/modules/workflow/workflow-stages.service.ts:140-159 | the loop ends within one more lookup than there are taken slugs and returns the first free candidate |
| Slugs.CandidatesDistinct | src/modules/workflow/workflow-stages.service.ts:145-157 | the candidates of the suffix loop are pairwise different |
| Slugs.DecimalInjective | src/modules/workflow/workflow-stages.service.ts:155 | two numbers that print alike are equal |
| Slugs.DecimalReadsBack | src/modules/workflow/workflow-stages.service.ts:155 | what is printed is digits without a leading zero and reads back as the number |
| Slugs.FirstFreeOutcome | src/modules/workflow/workflow-stages.service.ts:145-157 | the bare name if it is free, else the name with the smallest number from 2 on that is free |
| Slugs.TakenBound | src/modules/workflow/workflow-stages.service.ts:147-157 | k taken candidates need k taken slugs, the pigeonhole behind termination |
| Slugs.GenerateUniqueSlug | src/modules/organisations/organisations.service.ts:214-228 | returns a free, non-empty slug within N+1 lookups; it fits 140 characters if N+1 is below 10^11 |
| Slugs.SlugifyIsSlug | src/modules/organisations/organisations.service.ts:24-30 | the result is letters, digits and single dashes, does not start with a dash, is at most 128 long and ends with a dash only if it was cut |
| Slugs.SlugifyJoinsWords | src/modules/organisations/organisations.service.ts:24-30 | the slug is the maximal runs of letters and digits of the name, in order, joined by single dashes, and the first 128 characters of that |
| Slugs.SlugifyAgain | src/modules/organisations/organisations.service.ts:24-30 | applying it to its own result changes nothing exactly when the cut left no dash at the end |
| Slugs.CutCanLeaveDash | src/modules/organisations/organisations.service.ts:24-30 | a name short enough to be stored, 65 capital dotted I's, whose slug grows through lower-casing, is cut at a dash, and changes when slugified again |
| Stages.ValidIsContiguous | src/modules/workflow/workflow-stages.service.ts:326 | unique positions below n are exactly 0..n-1 |
| Stages.ListStages | src/modules/workflow/workflow-stages.service.ts:228-232 | the listing is the organisation's stages, all of them, in ascending position |
| Stages.AscendingUnique | src/modules/workflow/workflow-stages.service.ts:228-232 | a set of stages has one listing by position |
| Stages.ReorderKeepsValid | src/modules/workflow/workflow-stages.service.ts:208-245 | any list that passes the checks, duplicates included, leaves the positions 0..n-1 if the deferred constraint lets it commit |
| Stages.ReorderShowsList | src/modules/workflow/workflow-stages.service.ts:208-245 | a list of n different stages always commits, is what the listing then returns, and moves no other organisation's stage |
| Stages.ReorderCommitsIff | src/modules/workflow/workflow-stages.service.ts:208-226 | exactly which lists with repetitions the deferred constraint lets through: each stage left out stands at a place the list gives to a stage it names again later |
| Stages.RepeatedListCommits | src/modules/workflow/workflow-stages.service.ts:213-226 | the shortest such list: the second of two stages named twice, which is accepted and changes nothing |
| Stages.ReorderRefusals | src/modules/workflow/workflow-stages.service.ts:213-226 | when a list is refused and which id is reported as unknown |
| Stages.RenumberNeverCollides | src/modules/workflow/workflow-stages.service.ts:326-345 | after each single UPDATE of the renumbering loop no two stages share a position |
| Stages.DeleteKeepsValid | src/modules/workflow/workflow-stages.service.ts:321-345 | deleting leaves positions 0..n-2 and changes nothing else |
| Stages.DeleteKeepsOrder | src/modules/workflow/workflow-stages.service.ts:326-345 | the listing loses its one entry and keeps its order |
| Stages.CreateKeepsValid | src/modules/workflow/workflow-stages.service.ts:177-206 | appending at the length of the listing keeps positions contiguous and slugs unique |
| Stages.CreateOutcome | src/modules/workflow/workflow-stages.service.ts:177-206 | the new stage comes after all others, is not final, and has the base slug or its first free numbered form; no other stage changes |
| Stages.SeedKeepsValid | src/modules/workflow/workflow-stages.service.ts:161-175 | seeding leaves a valid table whose listing is the five default stages |
| Stages.SeedOutcome | src/modules/workflow/workflow-stages.service.ts:161-175 | when seeding succeeds, and the five rows it writes |
| Stages.NextIsLowestGreater | src/modules/workflow/workflow-stages.service.ts:97-116 | the stage at position + 1 is the one with the lowest greater position, missing only for the last stage |
| Stages.AdvancesAreBounded | src/modules/workflow/workflow-stage-rules.service.ts:186-202 | k automatic advances climb k positions, so there are at most n-1 of them |
| Stages.StageEditor.CreateStage | src/modules/workflow/workflow-stages.service.ts:177-206 | the table and the error are those of `Create` |
| Stages.StageEditor.ReorderStages | src/modules/workflow/workflow-stages.service.ts:208-245 | the loops and the check at commit compute `Reorder` or leave the table alone |
| Stages.StageEditor.Renumber | src/modules/workflow/workflow-stages.service.ts:326-345 | the loop, skipping rows in place, gives position i to the i-th remaining stage |
| Stages.StageEditor.DeleteAndRenumber | src/modules/workflow/workflow-stages.service.ts:321-345 | DELETE and the loop compute `Delete` |
| Workflow.IncidentStagesAreOwn | src/modules/incidents/incidents.service.ts:521-572 | after any run, a current stage exists and belongs to the organisation that claimed the incident |
| Workflow.RuleReferencesAreOwn | src/modules/workflow/workflow-stage-rules.service.ts:83-132 | after any run, each of the six references of a rules row names an existing stage of its organisation |
| Workflow.PositionsStayContiguous | src/modules/workflow/workflow-stages.service.ts:97-103 | after any run of creates, reorders, edits, deletes and seedings the positions are exactly 0..n-1 |
| Workflow.ForeignMoveIsStopped | src/modules/incidents/incidents.service.ts:521-572 | a manual move never reaches an incident of another organisation, and fails with the row-security error exactly where nothing else stops it |
| Workflow.UncheckedMoveBreaksOwnership | src/database/drizzle/migrations/0027_fix_is_org_admin_boolean_cast.sql:17-21 | without WITH CHECK each such move would put an incident on a foreign stage |
| Workflow.InUseSeesEveryHolder | src/modules/workflow/workflow-stages.service.ts:297-306 | the in-use count, confined to what the session sees, counts every holder |
| Workflow.SetNullNeverFires | src/modules/workflow/workflow-stages.service.ts:295-323 | a successful delete finds no incident and no rule of any organisation that refers to the stage |
| Workflow.DeleteStageKeepsValid | src/modules/workflow/workflow-stages.service.ts:295-345 | deleting a stage changes the stage table only and keeps every invariant |
| Workflow.UpdateRulesKeepsValid | src/modules/workflow/workflow-stage-rules.service.ts:83-132 | any accepted patch keeps all six references inside the organisation |
| Workflow.GateMirrorsList | src/modules/workflow/workflow-stage-rules.service.ts:140-178 | a stage is accepted exactly when it is listed as eligible, and the required stage is always found |
| Workflow.TargetIsOwn | src/modules/workflow/workflow-stage-rules.service.ts:186-202 | resolving a target never fails and never leaves the organisation |
| WorkflowOutcomes.TaskCreationLeads | src/modules/workflow/workflow-stage-rules.service.ts:186-202 | the incident of a new task goes to `task_creation_target_stage_id`, or with an empty column to the stage with the lowest greater position; from a final stage it stays; no other incident changes |
| WorkflowOutcomes.TaskCompletionLeads | src/modules/tasks/tasks.service.ts:793-833 | the same by `task_completion_target_stage_id` when the last open task is completed, and nothing moves before |
| WorkflowOutcomes.EventCreationLeads | src/modules/events/events.service.ts:161-176 | the same for every linked incident by `event_creation_target_stage_id` |
| WorkflowOutcomes.EventCompletionLeads | src/modules/events/events.service.ts:346-374 | the same for every linked incident by `event_completion_target_stage_id` |
| WorkflowOutcomes.TaskCreationIff | src/modules/tasks/tasks.service.ts:118-170 | a task is created exactly for an approved incident of the organisation on a stage that is not final and is the one required for tasks, if one is |
| WorkflowOutcomes.EventCreationIff | src/modules/events/events.service.ts:100-159 | the same for every incident of a list without repetitions, by the stage required for events |
| WorkflowOutcomes.EligibleForTasks | src/modules/workflow/workflow-stage-rules.service.ts:168-178 | the listed stages, by the column `task_creation_min_stage_id` |
| WorkflowOutcomes.EligibleForEvents | src/modules/workflow/workflow-stage-rules.service.ts:168-178 | the listed stages, by the column `event_creation_min_stage_id` |
| WorkflowOutcomes.ReadRulesOutcome | src/modules/workflow/workflow-stage-rules.service.ts:64-81 | the row inserted on first read: the claim stage for both required stages, every target automatic |
| WorkflowOutcomes.UpdateRulesIff | src/modules/workflow/workflow-stage-rules.service.ts:83-132 | a patch is accepted exactly if every stage it names is the organisation's |
| WorkflowOutcomes.UpdateRulesOutcome | src/modules/workflow/workflow-stage-rules.service.ts:96-100 | each of the six columns takes its own field or stays, and no other row or table changes |
| WorkflowOutcomes.DeleteStageIff | src/modules/workflow/workflow-stages.service.ts:295-319 | a stage is deleted exactly if it is own, no incident is on it and no column of the row names it; which refusal is given otherwise |
| WorkflowOutcomes.EditStageOutcome | src/modules/workflow/workflow-stages.service.ts:253-287 | an edit of an own stage changes its final flag and nothing else |
| WorkflowOutcomes.SeedOrgOutcome | src/modules/organisations/organisations.service.ts:279-282 | a new organisation requires its second default stage for tasks and events |
| WorkflowOutcomes.ReportOutcome | src/modules/incidents/incidents.service.ts:103-150 | a report is pooled, without verdict or stage, and is its reporter's |
| WorkflowOutcomes.ClaimWrites | src/modules/incidents/incident-pool.service.ts:86-146 | a claim writes organisation, approval, claim stage and version of the one incident |
| WorkflowOutcomes.RejectWrites | src/modules/incidents/incidents.service.ts:430-478 | a rejection writes the verdict, the version and, if a Dismissed stage exists, the stage |
| WorkflowOutcomes.MarkDuplicateOutcome | src/modules/incidents/incidents.service.ts:480-511 | when an incident is marked as a duplicate, and that stage and version stay |
| WorkflowOutcomes.UpdateStageOutcome | src/modules/incidents/incidents.service.ts:521-587 | when a manual move succeeds, and what it writes |
| Workflow.CreateTaskSucceeds | src/modules/tasks/tasks.service.ts:118-197 | on the incident side, creation succeeds exactly when the incident is the organisation's, approved and on an eligible stage; the advance cannot fail |
| Workflow.CompleteTaskSucceeds | src/modules/tasks/tasks.service.ts:793-833 | once the task itself may be completed, the advance that follows cannot fail, whatever rules, stages and visibility are |
| Workflow.LinkableAllIff | src/modules/events/events.service.ts:100-125 | the first loop accepts a list exactly when each incident in it qualifies, although it may insert the rules row on the way |
| Workflow.CreateEventSucceeds | src/modules/events/events.service.ts:95-179 | event creation succeeds exactly when every linked incident is the organisation's, approved and on an eligible stage, and none is listed twice |
| Workflow.FinishEventSucceeds | src/modules/events/events.service.ts:346-374 | once the status allows completion, the advances that follow cannot fail on any linked incident |
| Workflow.CreateTaskMoves | src/modules/tasks/tasks.service.ts:182-197 | exactly the task's incident moves, to the target of the stage it was on; `WorkflowOutcomes.TaskCreationLeads` says which stage that is |
| Workflow.CompleteTaskMoves | src/modules/tasks/tasks.service.ts:793-833 | the incident moves if and only if this was its last open task; where to, `WorkflowOutcomes.TaskCompletionLeads` |
| Workflow.CreateEventMoves | src/modules/events/events.service.ts:161-176 | exactly the linked incidents move, each to the target of its own stage; where that is, `WorkflowOutcomes.EventCreationLeads` |
| Workflow.FinishEventMoves | src/modules/events/events.service.ts:346-374 | the same for completion; where to, `WorkflowOutcomes.EventCompletionLeads` |
| Workflow.VersionDeterminesStage | src/modules/incidents/incidents.service.ts:490-498 | two states of one run in which an incident has the same version agree on its organisation and stage |
| Workflow.OptimisticMoveReplacesWhatWasRead | src/modules/incidents/incidents.service.ts:541-572 | a move that sends the version it read changes nothing or replaces exactly the stage that was read |
| Workflow.ClaimOutcome | src/modules/incidents/incident-pool.service.ts:86-146 | a claim succeeds exactly on a visible pooled incident inside the area, and lands on position 1, or 0 if there is one stage |
| Workflow.RejectOutcome | src/modules/incidents/incidents.service.ts:419-451 | a rejection succeeds exactly on an approved incident of the organisation, and goes to the Dismissed stage if there still is one |
| Workflow.TriageIsTerminal | src/modules/incidents/incidents.service.ts:419-428 | over any run a rejected or duplicate incident keeps its verdict and organisation, and can neither be claimed nor get a task or event |
| Workflow.SecondTaskAtOnceIff | src/modules/workflow/workflow-stage-rules.service.ts:140-160 | when a second task is let through right after the first |
| Workflow.SecondTaskNeedsReturn | src/modules/tasks/tasks.service.ts:130-197 | with a required stage that leads elsewhere, two creations on one incident have a request between them that moves it back |
| Workflow.AutomaticRunsStop | src/modules/workflow/workflow-stages.service.ts:97-116 | with automatic targets and no manual interference an incident climbs one position per version, never leaves a final stage, and moves at most n-1 times over any run |
| Workflow.WorkflowTables.UpdateStage | src/modules/incidents/incidents.service.ts:521-587 | computes the manual move, no-op and version guard included |
| Workflow.WorkflowTables.GetRules | src/modules/workflow/workflow-stage-rules.service.ts:64-81 | returns the row and inserts the default row on first read |
| Workflow.WorkflowTables.CreateTask | src/modules/tasks/tasks.service.ts:113-200 | computes the creation step or rolls back |
| Workflow.WorkflowTables.CompleteTask | src/modules/tasks/tasks.service.ts:793-833 | counting the open tasks and advancing compute the incident side of completion or roll back |
| Workflow.WorkflowTables.CreateEvent | src/modules/events/events.service.ts:95-179 | the two loops compute the creation step or roll back |
| Workflow.WorkflowTables.FinishEvent | src/modules/events/events.service.ts:346-374 | the loop over the links computes the incident side of completion or rolls back |
| Completion.TaskCompletionIff | src/modules/tasks/tasks.service.ts:741-833 | in every reachable state a completion succeeds exactly when the accepted assignee asks, the task is in progress and it has a photo |
| Completion.EventCompletionIff | src/modules/events/events.service.ts:296-374 | in every reachable state completing an event succeeds exactly when it is an ongoing event of the organisation |
| Completion.TaskCreationIff | src/modules/tasks/tasks.service.ts:113-200 | in every reachable state creation succeeds exactly when the incident qualifies and the assignee is an active volunteer of the organisation |
| Completion.LastCompletionMoves | src/modules/tasks/tasks.service.ts:793-833 | completing a task moves its incident exactly when all its other tasks are completed by the statuses the task service keeps |
| Completion.PartsAgree | src/modules/tasks/tasks.service.ts:113-200 | a request that concerns two services succeeds exactly if both parts do, and does both |
| Completion.PeopleInBoth | src/modules/users/users.service.ts:212-253 | joining and leaving change the tasks and the events of an account together or not at all |
| Completion.PeopleOutcome | src/modules/users/users.service.ts:159-177 | afterwards both see the same accounts, changed as the request says |
| Tasks.SingleActiveAssignee | src/modules/tasks/tasks.service.ts:488-548 | after any run of three services, two rows of one task name different volunteers and are not both active |
| Tasks.DeletedAccountsHoldNothing | src/modules/users/users.service.ts:294-316 | after any run, every row is of a task of its own organisation, and no row of a deleted account is active |
| Tasks.LifecycleIsConsistent | src/modules/tasks/tasks.service.ts:668-768 | after any run, pending exactly without a start, completed exactly with a completion time, completed only with a photo |
| Tasks.CompletedIsAbsorbing | src/modules/tasks/tasks.service.ts:741-768 | a completed task keeps its status, timestamps and organisation over any run; only its photo count may grow |
| Tasks.RemovalIsExact | src/modules/organisations/organisation-members.service.ts:175-214 | the volunteer holds nothing in the organisation any more and exactly the tasks held, unless completed, are pending again; no task another volunteer holds is touched |
| Tasks.RemovalEndsMembership | src/modules/organisations/organisation-members.service.ts:151-258 | a removal succeeds exactly for another account that is a volunteer of the organisation; the account stays, belongs nowhere, is a citizen, and no other account changes |
| Tasks.RemovalOutcome | src/modules/organisations/organisation-members.service.ts:175-214 | row by row: the volunteer's active rows in the organisation are cancelled, their open tasks are pending without a start, nothing else changes |
| Tasks.DeletionPreservesHistory | src/modules/users/users.service.ts:261-316 | each task the session sees (all of them for a platform admin) with a user or sentinel row ends with one sentinel row and no user row; other rows are unchanged |
| Tasks.DeletionOutcome | src/modules/users/users.service.ts:261-316 | row by row: what becomes of each row of the deleted account, and that all other rows and accounts stay |
| Accounts.DeletionAllowedIff | src/modules/users/users.service.ts:212-234 | deletion is refused exactly for the sentinel and for the last active admin of an organisation |
| Tasks.DeletionResets | src/modules/users/users.service.ts:294-316 | exactly the tasks in sight that the user held without an earlier sentinel row return to pending |
| Tasks.HistorySurvivesIff | src/modules/users/users.service.ts:212-292 | when a task keeps its history after the account is gone, for members, former members and platform admins |
| Tasks.HistoryLostExample | src/modules/users/users.service.ts:279-292 | a concrete account whose history in a former organisation is lost |
| Tasks.TaskTables.Reassign | src/modules/tasks/tasks.service.ts:488-548 | cancel, then reuse or insert, computes the reassignment step |
| Tasks.ReassignIff | src/modules/tasks/tasks.service.ts:488-548 | a reassignment succeeds exactly if the task is the organisation's, the volunteer is active in it, and the new key is free where an INSERT is needed |
| Tasks.ReassignOutcome | src/modules/tasks/tasks.service.ts:488-548 | afterwards exactly the volunteer named holds the task: nothing has changed, or their row is assigned and the former holder's is cancelled; every other row, the tasks and the users stay |
| Tasks.CreateOutcome | src/modules/tasks/tasks.service.ts:113-200 | when a task is created, and the two rows written |
| Tasks.RespondOutcome | src/modules/tasks/tasks.service.ts:601-648 | an answer succeeds exactly on the own row while it is assigned, and is recorded there as given |
| Tasks.StartOutcome | src/modules/tasks/tasks.service.ts:668-705 | when a task is started, and that it gets its status and start time only |
| Tasks.PhotosOutcome | src/modules/tasks/tasks.service.ts:720-739 | when photos are added, and how many there are then |
| Tasks.CompleteOutcome | src/modules/tasks/tasks.service.ts:741-768 | when a task is completed, and that it gets its status and completion time only |
| Tasks.TaskTables.RespondToAssignment | src/modules/tasks/tasks.service.ts:601-648 | computes the response step |
| Tasks.TaskTables.CancelEach | src/modules/organisations/organisation-members.service.ts:188-214 | the loop cancels each row and resets each task as `CancelRows` says |
| Tasks.TaskTables.RemoveVolunteer | src/modules/organisations/organisation-members.service.ts:151-218 | computes the removal step |
| Tasks.TaskTables.RepointToSentinel | src/modules/users/users.service.ts:261-316 | the anti-join UPDATE, the DELETE and the loop over the sentinel's rows, over the rows the session sees |
| Tasks.TaskTables.DeleteAccount | src/modules/users/users.service.ts:212-316 | computes the deletion step |
| Events.CounterBoundsRows | src/modules/events/events.service.ts:383-493 | after any run, membership switches included: one row per user and event, rows <= counter <= capacity |
| Events.SeatsAreAccountedFor | src/modules/users/users.service.ts:321-358 | over every run, switches and platform admins included, the counter of a live event is its rows, plus the initial difference, plus one per account deleted while holding a seat there outside its own organisation |
| Events.RunExactIff | src/modules/organisations/organisation-members.service.ts:220-252 | the counters of live events end exact if and only if no such deletion took place |
| Events.RunKeepsExact | src/modules/organisations/organisation-members.service.ts:220-252 | in particular they do while users leave only through removal or deletion and RSVP only in their own organisation |
| Events.DeletionExactIff | src/modules/users/users.service.ts:321-358 | an account deletion keeps the counters exact if and only if the user has no live RSVP outside the own organisation |
| Events.RemovalFreesSeats | src/modules/organisations/organisation-members.service.ts:220-252 | removal takes the volunteer's row off every unfinished event of the organisation and lowers its counter by one |
| Events.RemovalEndsMembership | src/modules/organisations/organisation-members.service.ts:151-258 | the same on the accounts the event service reads |
| Events.RemovedCannotRsvp | src/modules/organisations/organisation-members.service.ts:254-258 | a removed volunteer is turned away from every event |
| Events.RemovalOutcome | src/modules/organisations/organisation-members.service.ts:220-252 | event by event: the row goes and its seat is counted off exactly on scheduled and ongoing events of the organisation |
| Events.DeletionOutcome | src/modules/users/users.service.ts:321-358 | event by event: the row goes everywhere, and its seat is counted off exactly on scheduled and ongoing events of the own organisation |
| Events.SwitchedAway | src/modules/organisations/invitations.service.ts:187-191 | a run that leaves a volunteer with a seat in an organisation they were moved away from |
| Events.RsvpAsPlatformAdmin | src/common/guards/tenant.guard.ts:31-33 | a platform admin takes a seat in an organisation they are not in |
| Events.SwitchLeaksSeat | src/modules/users/users.service.ts:321-358 | from either state, deleting the account leaves the seat taken by nobody |
| Events.EventTables.Rsvp | src/modules/events/events.service.ts:383-445 | computes the RSVP step |
| Events.EventTables.CancelRsvp | src/modules/events/events.service.ts:447-493 | computes the cancellation step |
| Events.RsvpRefusals | src/modules/events/events.service.ts:383-432 | which RSVP is refused, and why |
| Events.RsvpOutcome | src/modules/events/events.service.ts:383-445 | an accepted RSVP leaves the user with exactly one row and counts it if it is new |
| Events.CancelOutcome | src/modules/events/events.service.ts:447-493 | a cancellation takes the row and counts it off if there was one |
| Events.StatusOutcome | src/modules/events/events.service.ts:46-51 | exactly the four transitions are allowed, and they change the status only |
| Events.CreateOutcome | src/modules/events/events.service.ts:127-145 | a new event is scheduled, without rows, and counts none |
| Accounts.JoiningOutcome | src/modules/users/users.service.ts:159-177 | a new account belongs nowhere; joining sets organisation and role and leaves the flags and every other account alone |
| Events.EventTables.WithdrawEach | src/modules/organisations/organisation-members.service.ts:220-252 | the loop deletes each row and decrements only unfinished events |
| Events.EventTables.RemoveVolunteer | src/modules/organisations/organisation-members.service.ts:151-252 | computes the removal step |
| Events.EventTables.DeleteAccount | src/modules/users/users.service.ts:321-358 | computes the deletion step |
| RsvpProtocol.Serializable | src/modules/events/events.service.ts:383-493 | every interleaving equals the serial run in commit order, with the same answers and no primary-key collision |
| RsvpProtocol.CapacityHolds | src/modules/events/events.service.ts:383-493 | in every interleaving, one row per user and rows <= counter <= capacity |
| RsvpProtocol.HolderCanMove | src/modules/events/events.service.ts:395-402 | whoever holds the lock another transaction waits for can take its next step |
| RsvpProtocol.WaitsIff | src/modules/events/events.service.ts:395-402 | a request waits exactly while another one is past its first statement on the same event |
| RsvpProtocol.UnblockedFinishes | src/modules/events/events.service.ts:383-493 | in every reached state a request that does not wait is answered after five statements of its own, as if it had run alone |
| RsvpProtocol.SerialOutcome | src/modules/events/events.service.ts:383-493 | what running alone means for the rows and the counter |
| RsvpProtocol.StartAndCrash | src/common/interceptors/tenant.interceptor.ts:50-83 | a request that dies changes no committed row and gives its lock back |
| InviteLinks.LimitHolds | src/modules/organisations/invite-links.service.ts:235-257 | in every interleaving of accepts and revokes the counter stays within the limit and the limit never changes |
| InviteLinks.RevocationStays | src/modules/organisations/invite-links.service.ts:91-118 | from any reached state on, with any accepts past their read, a committed revocation stays and the counter never falls |
| InviteLinks.GrantsAreAccountedFor | src/modules/organisations/invite-links.service.ts:267-281 | memberships granted = counted uses + the one in flight + those of transactions that died before COMMIT; that each of them is a membership written, `OnlyGrantsWriteMembers` |
| InviteLinks.GrantsWithinLimit | src/modules/organisations/invite-links.service.ts:182-284 | while no COMMIT fails after its grant, the memberships written through a link equal its uses or exceed them by the one in flight, and never exceed the limit |
| InviteOutcomes.OnlyGrantsWriteMembers | src/modules/organisations/invite-links.service.ts:276-281 | memberships change only when a counted redemption goes on; then the user is in the organisation of the link, one more grant is on record for that link, and nothing else changes |
| InviteOutcomes.OnlyCommitsWriteLinks | src/modules/organisations/invite-links.service.ts:235-257 | links change only at a COMMIT, by one use or by the revocation |
| InviteOutcomes.EveryMemberWasGranted | src/modules/organisations/invite-links.service.ts:182-284 | over any run, whoever is in another organisation than at the start is in that of a link granted through in the run |
| InviteOutcomes.MemberMovedIff | src/modules/organisations/invite-links.service.ts:227-230 | in a reached state a link can still move a member exactly if a redemption of theirs is past the membership check, leads elsewhere and is not bound to find the link used up |
| InviteOutcomes.TwoLinksMoveAMember | src/modules/organisations/invite-links.service.ts:227-230 | a run with two links that gets there |
| InviteOutcomes.AcceptAlone | src/modules/organisations/invite-links.service.ts:182-284 | when a redemption that nobody interferes with succeeds, and all it changes |
| InviteOutcomes.RevokeAlone | src/modules/organisations/invite-links.service.ts:91-118 | when a revocation succeeds, and all it changes |
| InviteOutcomes.CrashOutcome | src/modules/organisations/invite-links.service.ts:267-281 | a redemption that dies changes nothing, and one that had granted is put on record |
| ClaimProtocol.ClaimedOnce | src/modules/incidents/incident-pool.service.ts:79-155 | an incident has changed exactly if one claim reported success; it is the only one and its organisation is on the row |
| ClaimProtocol.ClaimIsFinal | src/modules/incidents/incident-pool.service.ts:143-155 | a claimed incident is not changed by any later claim |
| ClaimProtocol.FreeClaimIsAnswered | src/modules/incidents/incident-pool.service.ts:86-155 | a claim whose row nobody else has locked is answered after three statements; it wins exactly on an unclaimed incident in the area, and only then changes it |
| ClaimProtocol.StartAndCrash | src/common/interceptors/tenant.interceptor.ts:50-83 | a claim that dies changes no incident and gives its lock back |
| Outbox.MarkIsFinal | src/modules/notifications/dispatch/notification-dispatch.repository.ts:20-52 | once a mark is committed, the row never changes again, whatever schedules, cancels and ticks follow |
| Outbox.StoredAtMostOnce | src/modules/notifications/dispatch/notification-dispatch.service.ts:56-88 | a stored notification has the committed mark of the tick that wrote it, was due, was attempted once, and is the only one of its user for that kind and entity |
| Outbox.TombstoneSilences | src/modules/notifications/dispatch/notification-dispatch.repository.ts:35-52 | after a committed tombstone no notification for that dispatch is ever stored |
| Outbox.CancelSilences | src/modules/notifications/dispatch/notification-dispatch.repository.ts:41-52 | a request that cancels a pending row and commits, whatever happens in between, leaves its own tombstone; no notification for that dispatch was stored before or is ever after |
| Outbox.RequestOutcome | src/modules/notifications/dispatch/notification-dispatch.repository.ts:20-52 | what schedule, insert and cancel leave of an absent, a pending and a marked row, and that nothing is committed yet |
| Outbox.CommitOutcome | src/database/system-db.service.ts:35-53 | COMMIT publishes what the transaction sees, or nothing if a statement has failed |
| Outbox.HandleOutcome | src/modules/notifications/dispatch/notification-dispatch.service.ts:58-71 | a handler pushes and writes one row to each user it reaches, and a failed statement dooms the tick |
| Outbox.FailedTickStoresNothing | src/modules/notifications/dispatch/notification-dispatch.service.ts:56-72 | a doomed tick stores neither marks nor rows |
| Outbox.ScheduledIsDue | src/modules/notifications/dispatch/notification-dispatch.repository.ts:20-33 | a scheduled row is due from its time on and not before |
| Outbox.RollbackOutcome | src/database/system-db.service.ts:35-53 | a rollback changes no committed row, gives the locks back and recalls no push |
| Outbox.PushedTwiceOnlyAfterRollback | src/modules/notifications/dispatch/notification-dispatch.service.ts:40-51 | a tick pushes each message once; two ticks push for one dispatch only if one of them rolled back |
| Outbox.PushCanRepeat | src/modules/notifications/dispatch/notification-dispatch.service.ts:40-51 | for every dispatch and user a run in which the push goes out twice and the row is stored once |
| Outbox.BatchExists | src/modules/notifications/dispatch/notification-dispatch.service.ts:74-88 | the claiming query has an answer in every state |
| Outbox.BatchNotesOnce | src/modules/notifications/dispatch/notification-dispatch.service.ts:58-71 | a tick writes one row to each recipient of each dispatch of its batch and no other |
| Outbox.TickRefinesProtocol | src/database/system-db.service.ts:35-53 | the tick computed row by row is a run of the concurrent protocol |
| Outbox.DispatchTable.Schedule | src/modules/notifications/dispatch/notification-dispatch.repository.ts:20-33 | the guarded upsert, with a marked row left alone |
| Outbox.DispatchTable.Cancel | src/modules/notifications/dispatch/notification-dispatch.repository.ts:41-52 | a pending row keeps its due time and attempts, carries an unclaimed mark of this transaction and is due at no later time; a marked row, a missing key and every other row stay |
| Outbox.ClaimMeans | src/modules/notifications/dispatch/notification-dispatch.service.ts:74-88 | a claim takes at most 100 rows that were pending and due, earliest first, marks each for this tick with one more attempt, makes none of them due at any later time, touches no other row, and leaves nothing due behind unless the batch is full |
| Outbox.DispatchTable.ClaimBatch | src/modules/notifications/dispatch/notification-dispatch.service.ts:74-88 | the UPDATE does exactly that to the table |
| Outbox.DispatchTable.RunDueDispatches | src/modules/notifications/dispatch/notification-dispatch.service.ts:56-72 | marks and rows of the whole batch, or nothing if any handler hit a database error |
| Reminders.EventReminderReachesEachOnce | src/modules/notifications/dispatch/dispatch-handlers/event-reminder.handler.ts:16-53 | after any run the handler writes once to each user with an RSVP of a live event and to nobody else |
| Reminders.TaskReminderReachesTheHolder | src/modules/notifications/dispatch/dispatch-handlers/task-due-reminder.handler.ts:27-53 | after any run it writes to the one active holder of an open task and to nobody else |
| Reminders.HandlersWriteOncePerUser | src/modules/notifications/dispatch/dispatch-handlers/event-reminder.handler.ts:31-52 | whatever part of its recipients a handler reaches, each user gets one row |
| RowSecurity.PoliciesNeverRaise | src/database/drizzle/migrations/0023_fix_escape_flag_boolean_cast.sql:29-103 | whatever a connection has served and the current transaction has done, no policy in force raises, not even while the statistics are counted |
| RowSecurity.EscapeIsOwn | src/common/interceptors/tenant.interceptor.ts:56-70 | an escape flag is on exactly if this transaction has set it |
| RowSecurity.EscapeCastRaisesIff | src/database/drizzle/migrations/0023_fix_escape_flag_boolean_cast.sql:1-27 | when a policy with the cast form of an escape clause may raise in some order of evaluation, for any policy and flag |
| RowSecurity.PartialOpeningRaisesIff | src/database/system-db.service.ts:14-28 | with only the platform-admin flag set, the old pool clause may raise on every connection that has served before, and on no other |
| RowSecurity.StatsRestore | src/database/drizzle/migrations/0031_public_platform_stats.sql:40-63 | the statistics call leaves the session as it was and sees every row meanwhile |
| RowSecurity.ImageFollowsIncident | src/database/drizzle/migrations/0027_fix_is_org_admin_boolean_cast.sql:23-36 | an image is readable exactly when its incident is |
| RowSecurity.PoliciesAreVisibility | src/database/drizzle/migrations/0027_fix_is_org_admin_boolean_cast.sql:10-21 | on any connection the incident policies of a member's request are the `Visible` and `WithCheck` that the lifecycle model uses |
| RowSecurity.PolicyIsScope | src/database/drizzle/migrations/0003_app_role_and_rls.sql:77-88 | on any connection the policy on tasks and assignments is the `Scope` that the task model uses, platform admins included |
| RowSecurity.SystemSeesEverything | src/database/system-db.service.ts:38-43 | a cron transaction passes the policies for every row of every tenant |
| RowSecurity.TenantPolicies | src/database/drizzle/migrations/0023_fix_escape_flag_boolean_cast.sql:29-66 | who gets past the policies of tenant tables, invitations and audit rows |
| RowSecurity.UserPolicies | src/database/drizzle/migrations/0014_join_requests_rls.sql:10-20 | who gets past those of notifications and join requests |
| RowSecurity.IncidentPolicies | src/database/drizzle/migrations/0027_fix_is_org_admin_boolean_cast.sql:10-21 | who sees and who may write an incident, anonymous readers and platform admins included |
| RowSecurity.RequestStands | src/common/interceptors/tenant.interceptor.ts:56-70 | on any connection a request stands for what it was opened with, and has an escape clause open exactly if it set the flag itself |
| RowSecurity.RepointOutcome | src/database/tenant-db.service.ts:50-55 | a request given another tenant stands for that tenant's admin, and for nothing else new |
| RowSecurity.NothingLeftBehind | src/common/interceptors/tenant.interceptor.ts:50-83 | no setting outlives its transaction |
| RowSecurity.Connection.OpenRequest | src/common/interceptors/tenant.interceptor.ts:56-70 | the four settings in order compute the request preamble |
| RowSecurity.Connection.OpenSystem | src/database/system-db.service.ts:38-43 | the four settings compute the system preamble |
| RowSecurity.Connection.PublicPlatformStats | src/database/drizzle/migrations/0031_public_platform_stats.sql:40-63 | save, set, count and restore compute the statistics step, and every row is counted |
| RowSecurity.Connection.Serve | src/common/interceptors/tenant.interceptor.ts:50-83 | a whole transaction up to the connection's return to the pool |

## Left out

- Floating point and the WGS84 spheroid: the box is computed over exact reals, the cosine is any even function that falls on [0, 90] and is positive below 90, and a distance is any cost that charges more than the assumed rates.
- Lower-casing and the stage `slugify` (src/modules/workflow/workflow-stages.service.ts:26-32): `Slugs.Slugify` takes a lower-cased name, and the base slug of a stage is a parameter.
- PostGIS, presigned URLs, audit rows, message texts, pagination, dashboards and the values of the public statistics: reads, bookkeeping or foreign calls.
- Push delivery: a push is only recorded as handed out; eligibility and the push service are not modelled.
- IncidentProximityHandler: its recipients are taken as a list without repetitions, one row per matching user.
- Session and token validation, token lifetimes, guards and DTO validation; the organisation in the route is the tenant of the session.
- Platform-admin sessions in the lifecycle: excluded from the runs of `Workflow`, as the ownership claim does not hold of them. Their account deletions and their RSVPs in other organisations are part of `Tasks` and `Events`.
- The platform-admin flag of an account: set in the database, no request changes it.
- Incident reporters: a deleted account's reports keep their reporter in the model, which affects visibility only.
- `findFirst` without an order: taken as the row with the lowest key.
- Roles in `InviteLinks`: a membership there is the organisation alone; `accept` always writes the volunteer role.
- Concurrency outside the four protocols: `removeVolunteer`, `deleteAccount`, task, stage, rule and triage requests are serial transactions; `removeVolunteer` in particular decrements without checking that its DELETE matched a row.
- Workflow.CompleteTaskSucceeds: speaks of an open task; the assignee, status and photo checks are in `Tasks`, and `Completion.TaskCompletionIff` joins them.
- Workflow.WorkflowTables.CompleteTask: the same; the checks on the task are in `Tasks.TaskTables.MarkCompleted`.
- Workflow.WorkflowTables.FinishEvent: the same; the status transition is in `Events.EventTables.UpdateStatus`.
- Workflow.FinishEventSucceeds: speaks of an unfinished event; the status transition is in `Events`, and `Completion.EventCompletionIff` joins them.
- The order in which PostgreSQL evaluates OR: open, so an operand that raises counts as "may raise" whatever the other says.
- The tombstones that task completion, event cancellation and volunteer removal write are steps of `Outbox`, not joined to `Tasks` and `Events` in one state.
- `RsvpProtocol`, `InviteLinks` and `ClaimProtocol` are transition systems on values; the update in place of a row is a map update.
- A failed final COMMIT after `setMembership`: kept as a step that may happen (`lost`), not excluded, except in InviteLinks.GrantsWithinLimit.
- InviteLinks.GrantsWithinLimit: assumes that no COMMIT fails after its grant, because the grant is committed on a separate connection.
- Cycles of `duplicateOfId`: allowed by the source, nothing is claimed about them.
- Account creation by email invitation and nominated admins appear only as membership changes.
