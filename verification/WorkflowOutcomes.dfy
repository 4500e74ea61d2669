/** What each request of the incident lifecycle comes to, told in the columns of the tables: where
    the four triggers lead, whom the gates let through, and what every edit writes. */
module WorkflowOutcomes {
  import opened Common
  import S = Stages
  import opened Workflow

  // ----- Where a trigger leads -----

  predicate OwnStage(t: S.Table, org: OrgId, id: StageId) {
    id in t && t[id].org == org
  }

  /** The stage of the same organisation with the lowest greater position. */
  ghost predicate IsNextStage(t: S.Table, current: StageId, next: StageId)
    requires current in t
  {
    && OwnStage(t, t[current].org, next) && t[next].position > t[current].position
    && forall id :: OwnStage(t, t[current].org, id) && t[id].position > t[current].position
                    ==> t[next].position <= t[id].position
  }

  ghost predicate IsLastStage(t: S.Table, current: StageId)
    requires current in t
  {
    forall id :: OwnStage(t, t[current].org, id) ==> t[id].position <= t[current].position
  }

  /** An incident before and after a trigger whose column is `configured`. From a final stage, and
      without a stage, it stays. A configured stage is where it goes, one version on, unless it is
      there already. "Automatic" takes it to the next stage, if there is one. */
  ghost predicate Leads(t: S.Table, configured: Option<StageId>, was: Incident, now: Incident)
    requires was.stage.Some? ==> was.stage.value in t
  {
    if was.stage.None? || t[was.stage.value].isFinal then now == was
    else if configured.Some? then
      now == if configured == was.stage then was else was.(stage := configured, version := was.version + 1)
    else
      || (IsLastStage(t, was.stage.value) && now == was)
      || (now.stage.Some? && IsNextStage(t, was.stage.value, now.stage.value)
          && now == was.(stage := now.stage, version := was.version + 1))
  }

  /** The incidents of the list are led there, and no other incident changes. */
  ghost predicate LeadsAll(s: State, s': State, configured: Option<StageId>, ids: set<IncidentId>) {
    && s'.stages == s.stages && s'.incidents.Keys == s.incidents.Keys && ids <= s.incidents.Keys
    && (forall id :: id in s.incidents && id !in ids ==> s'.incidents[id] == s.incidents[id])
    && (forall id :: id in ids ==>
          && (s.incidents[id].stage.Some? ==> s.incidents[id].stage.value in s.stages)
          && Leads(s.stages, configured, s.incidents[id], s'.incidents[id]))
  }

  /** One incident, for any trigger whose column is `configured`. */
  lemma MovedByLeads(s: State, org: OrgId, trigger: Trigger, i: Incident, configured: Option<StageId>)
    requires Valid(s) && IncidentOk(s.stages, i) && i.org == Some(org)
    requires configured == TargetOf(EnsureRules(s, org).rules[org], trigger)
    ensures i.stage.Some? ==> i.stage.value in s.stages
    ensures Leads(s.stages, configured, i, MovedBy(s, org, trigger, i))
  {
    if i.stage.Some? {
      TargetIsOwn(s, org, trigger, i.stage.value);
      S.NextIsLowestGreater(s.stages, i.stage.value);
      NextStage(s.stages, i.stage.value);
    }
  }

  lemma NextStage(t: StageTable, current: StageId)
    requires S.Valid(t) && current in t
    ensures S.FindNext(t, current).None? ==> IsLastStage(t, current)
    ensures S.FindNext(t, current).Some? ==>
              S.FindNext(t, current).value != current && IsNextStage(t, current, S.FindNext(t, current).value)
  {
    S.NextIsLowestGreater(t, current);
    assert forall id :: OwnStage(t, t[current].org, id) ==> id in S.OfOrg(t, t[current].org);
  }

  lemma TriggeredLeads(s: State, s': State, org: OrgId, trigger: Trigger, ids: seq<IncidentId>, at: set<IncidentId>,
      configured: Option<StageId>)
    requires Valid(s) && Triggered(s, s', org, trigger, ids) && forall id :: id in ids <==> id in at
    requires configured == TargetOf(EnsureRules(s, org).rules[org], trigger)
    ensures LeadsAll(s, s', configured, at)
  {
    forall id | id in ids
      ensures id in s.incidents && (s.incidents[id].stage.Some? ==> s.incidents[id].stage.value in s.stages)
      ensures Leads(s.stages, configured, s.incidents[id], s'.incidents[id])
    {
      assert IncidentOk(s.stages, s.incidents[id]);
      MovedByLeads(s, org, trigger, s.incidents[id], configured);
    }
  }

  /** Creating a task leads its incident by the column `task_creation_target_stage_id`. */
  lemma TaskCreationLeads(s: State, ss: Session, task: TaskId, id: IncidentId)
    requires Valid(s) && CreateTask(s, ss, task, id).Ok?
    ensures LeadsAll(s, CreateTask(s, ss, task, id).value,
                     if ss.org in s.rules then s.rules[ss.org].taskTarget else None, {id})
  {
    CreateTaskMoves(s, ss, task, id);
    TriggeredLeads(s, CreateTask(s, ss, task, id).value, ss.org, TaskCreation, [id], {id},
        if ss.org in s.rules then s.rules[ss.org].taskTarget else None);
  }

  /** Every other task of the same incident is completed. */
  ghost predicate OthersDone(s: State, task: TaskId)
    requires task in s.tasks
  {
    forall t :: t in s.tasks && s.tasks[t].incident == s.tasks[task].incident && t != task ==> s.tasks[t].done
  }

  /** Completing the last open task of an incident leads it by `task_completion_target_stage_id`;
      completing an earlier one leads nobody anywhere. */
  lemma TaskCompletionLeads(s: State, ss: Session, task: TaskId)
    requires Valid(s) && CompleteTask(s, ss, task).Ok?
    ensures task in s.tasks
    ensures var id := s.tasks[task].incident;
            LeadsAll(s, CompleteTask(s, ss, task).value,
                     if ss.org in s.rules then s.rules[ss.org].taskDoneTarget else None,
                     if OthersDone(s, task) then {id} else {})
  {
    CompletionTriggers(s, ss, task);
    TriggeredOneOrNone(s, CompleteTask(s, ss, task).value, ss.org, s.tasks[task].incident, OthersDone(s, task),
        if ss.org in s.rules then s.rules[ss.org].taskDoneTarget else None);
  }

  lemma CompletionTriggers(s: State, ss: Session, task: TaskId)
    requires Valid(s) && CompleteTask(s, ss, task).Ok?
    ensures task in s.tasks
    ensures Triggered(s, CompleteTask(s, ss, task).value, ss.org, TaskCompletion,
                      if OthersDone(s, task) then [s.tasks[task].incident] else [])
  {
    CompleteTaskMoves(s, ss, task);
    CompleteTaskSucceeds(s, ss, task);
    LastOpenTask(s, ss, task);
  }

  lemma TriggeredOneOrNone(s: State, s': State, org: OrgId, id: IncidentId, one: bool, configured: Option<StageId>)
    requires Valid(s) && Triggered(s, s', org, TaskCompletion, if one then [id] else [])
    requires configured == TargetOf(EnsureRules(s, org).rules[org], TaskCompletion)
    ensures LeadsAll(s, s', configured, if one then {id} else {})
  {
    TriggeredLeads(s, s', org, TaskCompletion, if one then [id] else [], if one then {id} else {}, configured);
  }

  lemma LastOpenTask(s: State, ss: Session, task: TaskId)
    requires Valid(s) && task in s.tasks && s.tasks[task].org == ss.org && !s.tasks[task].done
    ensures var id := s.tasks[task].incident;
            OpenTasks(s, ss.org, id) == {task} <==> OthersDone(s, task)
  {
    var id := s.tasks[task].incident;
    assert s.incidents[id].org == Some(s.tasks[task].org);
    assert task in OpenTasks(s, ss.org, id);
    forall t | t in s.tasks && s.tasks[t].incident == id
      ensures t in OpenTasks(s, ss.org, id) <==> !s.tasks[t].done
    {
      assert s.incidents[id].org == Some(s.tasks[t].org);
    }
  }

  /** Creating an event leads every linked incident by `event_creation_target_stage_id`. */
  lemma EventCreationLeads(s: State, ss: Session, event: EventId, ids: seq<IncidentId>)
    requires Valid(s) && CreateEvent(s, ss, event, ids).Ok?
    ensures LeadsAll(s, CreateEvent(s, ss, event, ids).value,
                     if ss.org in s.rules then s.rules[ss.org].eventTarget else None, set id | id in ids)
  {
    CreateEventMoves(s, ss, event, ids);
    TriggeredLeads(s, CreateEvent(s, ss, event, ids).value, ss.org, EventCreation, ids, set id | id in ids,
        if ss.org in s.rules then s.rules[ss.org].eventTarget else None);
  }

  /** Completing an event leads every linked incident by `event_completion_target_stage_id`. */
  lemma EventCompletionLeads(s: State, ss: Session, event: EventId)
    requires Valid(s) && FinishEvent(s, ss, event).Ok?
    ensures event in s.events
    ensures LeadsAll(s, FinishEvent(s, ss, event).value,
                     if ss.org in s.rules then s.rules[ss.org].eventDoneTarget else None,
                     set id | id in s.events[event].incidents)
  {
    FinishEventMoves(s, ss, event);
    var ids := s.events[event].incidents;
    TriggeredLeads(s, FinishEvent(s, ss, event).value, ss.org, EventCompletion, ids, set id | id in ids,
        if ss.org in s.rules then s.rules[ss.org].eventDoneTarget else None);
  }

  // ----- The rules row -----

  /** The stage a new organisation's rules require: the one at position 1, or the only one. */
  ghost predicate IsClaimStage(t: S.Table, org: OrgId, stage: Option<StageId>) {
    if forall id :: !OwnStage(t, org, id) then stage == None
    else
      stage.Some? && OwnStage(t, org, stage.value)
      && t[stage.value].position ==
         if exists id :: OwnStage(t, org, id) && t[id].position > 0 then 1 else 0
  }

  lemma ClaimStageIs(s: State, org: OrgId)
    requires S.Valid(s.stages)
    ensures IsClaimStage(s.stages, org, ClaimStage(s, org))
  {
    assert S.InRange(s.stages, org);
    ClaimStageLands(s, org);
    var own := S.OfOrg(s.stages, org);
    assert forall id :: OwnStage(s.stages, org, id) <==> id in own;
    if |own| > 1 {
      var at := S.StageAt(s.stages, org, 1);
      assert OwnStage(s.stages, org, at);
    } else if |own| == 1 {
      assert forall id :: id in own ==> s.stages[id].position < 1;
    }
  }

  /** Reading the rules gives the row, inserted on first read with the claim stage as both required
      stages and every target automatic. Nothing else is written, and a row that is there stays. */
  lemma ReadRulesOutcome(s: State, ss: Session)
    requires S.Valid(s.stages)
    ensures Apply(s, OpReadRules(ss)) == Ok(EnsureRules(s, ss.org))
    ensures var s' := EnsureRules(s, ss.org);
            if ss.org in s.rules then s' == s
            else
              && s'.rules.Keys == s.rules.Keys + {ss.org}
              && IsClaimStage(s.stages, ss.org, s'.rules[ss.org].taskMin)
              && s' == s.(rules := s.rules[ss.org := Rules(s'.rules[ss.org].taskMin, None, s'.rules[ss.org].taskMin,
                                                           None, None, None)])
  {
    ClaimStageIs(s, ss.org);
  }

  /** Which stages a task may be created on: any own stage that is not final, or only the required one
      if the row has one. */
  lemma EligibleForTasks(s: State, org: OrgId, stage: StageId)
    requires Valid(s)
    ensures stage in EligibleStages(s, org, TaskCreation) <==>
              && OwnStage(s.stages, org, stage) && !s.stages[stage].isFinal
              && (org in s.rules && s.rules[org].taskMin.Some? ==> s.rules[org].taskMin == Some(stage))
              && (org !in s.rules ==> IsClaimStage(s.stages, org, Some(stage)))
  {
    ClaimStageIs(s, org);
    if OwnStage(s.stages, org, stage) { OneClaimStage(s.stages, org, stage, ClaimStage(s, org)); }
  }

  lemma EligibleForEvents(s: State, org: OrgId, stage: StageId)
    requires Valid(s)
    ensures stage in EligibleStages(s, org, EventCreation) <==>
              && OwnStage(s.stages, org, stage) && !s.stages[stage].isFinal
              && (org in s.rules && s.rules[org].eventMin.Some? ==> s.rules[org].eventMin == Some(stage))
              && (org !in s.rules ==> IsClaimStage(s.stages, org, Some(stage)))
  {
    ClaimStageIs(s, org);
    if OwnStage(s.stages, org, stage) { OneClaimStage(s.stages, org, stage, ClaimStage(s, org)); }
  }

  lemma OneClaimStage(t: StageTable, org: OrgId, stage: StageId, claim: Option<StageId>)
    requires IsClaimStage(t, org, claim) && OwnStage(t, org, stage)
    ensures IsClaimStage(t, org, Some(stage)) <==> claim == Some(stage)
  {}

  /** The incident may get a task or an event under the required stage `min` of the row, if there is one. */
  ghost predicate Fits(s: State, org: OrgId, id: IncidentId, min: Option<StageId>) {
    && id in s.incidents && s.incidents[id].org == Some(org) && s.incidents[id].verification == Some(Approved)
    && s.incidents[id].stage.Some?
    && var stage := s.incidents[id].stage.value;
       && OwnStage(s.stages, org, stage) && !s.stages[stage].isFinal
       && (org in s.rules && min.Some? ==> min == Some(stage))
       && (org !in s.rules ==> IsClaimStage(s.stages, org, Some(stage)))
  }

  /** A task is created exactly for an approved incident of the organisation on a stage that is not final
      and is the one required for tasks, if one is. */
  lemma TaskCreationIff(s: State, ss: Session, task: TaskId, id: IncidentId)
    requires Valid(s)
    ensures CreateTask(s, ss, task, id).Ok? <==>
              task !in s.tasks && Fits(s, ss.org, id, if ss.org in s.rules then s.rules[ss.org].taskMin else None)
  {
    CreateTaskSucceeds(s, ss, task, id);
    if id in s.incidents && s.incidents[id].stage.Some? {
      EligibleForTasks(s, ss.org, s.incidents[id].stage.value);
    }
  }

  /** An event is created exactly for a non-empty list of such incidents without repetitions, by the stage
      required for events. */
  lemma EventCreationIff(s: State, ss: Session, event: EventId, ids: seq<IncidentId>)
    requires Valid(s)
    ensures CreateEvent(s, ss, event, ids).Ok? <==>
              && ids != [] && event !in s.events && Distinct(ids)
              && forall id :: id in ids ==>
                   Fits(s, ss.org, id, if ss.org in s.rules then s.rules[ss.org].eventMin else None)
  {
    CreateEventSucceeds(s, ss, event, ids);
    if !HasDuplicate(ids) { NoDuplicateIsDistinct(ids); }
    forall id | id in ids
      ensures Qualifies(s, ss.org, EventCreation, id)
              <==> Fits(s, ss.org, id, if ss.org in s.rules then s.rules[ss.org].eventMin else None)
    {
      if id in s.incidents && s.incidents[id].stage.Some? {
        EligibleForEvents(s, ss.org, s.incidents[id].stage.value);
      }
    }
  }

  /** A reference that a patch may write: none, or a stage of the organisation. */
  predicate MayRefer(t: S.Table, org: OrgId, field: Option<Option<StageId>>) {
    field.Some? && field.value.Some? ==> OwnStage(t, org, field.value.value)
  }

  /** A column takes the value sent, or keeps its own if none was sent. */
  predicate Took(field: Option<Option<StageId>>, was: Option<StageId>, now: Option<StageId>) {
    now == match field case Some(value) => value case None => was
  }

  /** A patch is accepted exactly when each stage it names is the organisation's. */
  lemma UpdateRulesIff(s: State, ss: Session, p: Patch)
    ensures var r, t := UpdateRules(s, ss, p), s.stages;
            && (r.Err? ==> r.error == InvalidStage)
            && (r.Ok? <==> && MayRefer(t, ss.org, p.taskMin) && MayRefer(t, ss.org, p.taskTarget)
                           && MayRefer(t, ss.org, p.eventMin) && MayRefer(t, ss.org, p.eventTarget)
                           && MayRefer(t, ss.org, p.taskDoneTarget) && MayRefer(t, ss.org, p.eventDoneTarget))
  {
    PatchGate(s, ss.org, p);
  }

  /** Then each column takes its own field, and no other row or table changes. The row it starts from is
      the one there is, or the one that reading the rules would insert. */
  lemma UpdateRulesOutcome(s: State, ss: Session, p: Patch)
    requires UpdateRules(s, ss, p).Ok?
    ensures var s', was := UpdateRules(s, ss, p).value, EnsureRules(s, ss.org).rules[ss.org];
            && ss.org in s'.rules && s' == s.(rules := s.rules[ss.org := s'.rules[ss.org]])
            && (ss.org in s.rules ==> was == s.rules[ss.org])
            && AllTook(p, was, s'.rules[ss.org])
  {
    RowReplaced(s, ss.org, Merged(EnsureRules(s, ss.org).rules[ss.org], p));
    MergedTakes(EnsureRules(s, ss.org).rules[ss.org], p);
  }

  lemma RowReplaced(s: State, org: OrgId, row: Rules)
    ensures EnsureRules(s, org).rules[org := row] == s.rules[org := row]
  {}

  ghost predicate AllTook(p: Patch, was: Rules, now: Rules) {
    && Took(p.taskMin, was.taskMin, now.taskMin)
    && Took(p.taskTarget, was.taskTarget, now.taskTarget)
    && Took(p.eventMin, was.eventMin, now.eventMin)
    && Took(p.eventTarget, was.eventTarget, now.eventTarget)
    && Took(p.taskDoneTarget, was.taskDoneTarget, now.taskDoneTarget)
    && Took(p.eventDoneTarget, was.eventDoneTarget, now.eventDoneTarget)
  }

  lemma MergedTakes(was: Rules, p: Patch)
    ensures AllTook(p, was, Merged(was, p))
  {}

  lemma PatchGate(s: State, org: OrgId, p: Patch)
    ensures AllPatchOk(s, org, p)
            <==> && MayRefer(s.stages, org, p.taskMin) && MayRefer(s.stages, org, p.taskTarget)
                 && MayRefer(s.stages, org, p.eventMin) && MayRefer(s.stages, org, p.eventTarget)
                 && MayRefer(s.stages, org, p.taskDoneTarget) && MayRefer(s.stages, org, p.eventDoneTarget)
  {}

  // ----- Stages -----

  /** A stage is deleted exactly when it is the organisation's, no incident of any organisation is on
      it, and none of the six columns of the organisation's row names it; and each refusal says which. */
  lemma DeleteStageIff(s: State, ss: Session, id: StageId)
    requires Valid(s)
    ensures var r := DeleteStage(s, ss, id);
            var own := OwnStage(s.stages, ss.org, id);
            var used := exists i :: i in s.incidents && s.incidents[i].stage == Some(id);
            var named := ss.org in s.rules
                         && var row := s.rules[ss.org];
                            Some(id) in {row.taskMin, row.taskTarget, row.eventMin, row.eventTarget,
                                         row.taskDoneTarget, row.eventDoneTarget};
            && (r == Err(StageNotFound) <==> !own)
            && (r == Err(StageInUse) <==> own && used)
            && (r == Err(StageInRule) <==> own && !used && named)
            && (r.Ok? <==> own && !used && !named)
  {
    if OwnStage(s.stages, ss.org, id) {
      InUseSeesEveryHolder(s, ss, id);
      assert forall i :: i in s.incidents && s.incidents[i].stage == Some(id) <==> i in InUse(s, ss, id);
      if ss.org in s.rules { NamedMeans(s.rules[ss.org], id); }
      S.DeleteKeepsPositionsUnique(s.stages, id);
      DeleteCommits(s, id);
    }
  }

  lemma NamedMeans(row: Rules, id: StageId)
    ensures Refers(row, id) <==>
        Some(id) in {row.taskMin, row.taskTarget, row.eventMin, row.eventTarget,
                     row.taskDoneTarget, row.eventDoneTarget}
  {}

  /** The renumbered table passes the deferred constraint. */
  lemma DeleteCommits(s: State, id: StageId)
    requires id in s.stages && S.PositionsUnique(S.Delete(s.stages, id))
    ensures CommitStages(SetNull(s, id), Ok(S.Delete(s.stages, id))).Ok?
  {}

  lemma EditStageOutcome(s: State, ss: Session, id: StageId, isFinal: bool)
    ensures var r := EditStage(s, ss, id, isFinal);
            && (r.Ok? <==> OwnStage(s.stages, ss.org, id))
            && (r.Ok? ==> && r.value == s.(stages := r.value.stages)
                          && r.value.stages == s.stages[id := s.stages[id].(isFinal := isFinal)])
  {}

  /** Creating, reordering and seeding stages write the stage table alone, seeding also the rules row:
      a new organisation requires the second default stage for tasks and events. */
  lemma StageEditsOutcome(s: State, ss: Session, id: StageId, baseSlug: string, order: seq<StageId>)
    requires Valid(s)
    ensures var r := Apply(s, OpCreateStage(ss, id, baseSlug));
            && (r.Ok? <==> id !in s.stages)
            && (r.Ok? ==> S.Create(s.stages, ss.org, id, baseSlug).Ok?
                          && r.value.stages == S.Create(s.stages, ss.org, id, baseSlug).value
                          && r.value == s.(stages := r.value.stages))
    ensures var r := Apply(s, OpReorder(ss, order));
            && (r.Ok? <==> S.Reorder(s.stages, ss.org, order).Ok?)
            && (r.Ok? ==> r.value.stages == S.Reorder(s.stages, ss.org, order).value
                          && r.value == s.(stages := r.value.stages))
  {
    if id !in s.stages { S.CreateKeepsValid(s.stages, ss.org, id, baseSlug); }
    if S.Reorder(s.stages, ss.org, order).Ok? { S.ReorderKeepsValid(s.stages, ss.org, order); }
  }

  lemma SeedOrgOutcome(s: State, org: OrgId, ids: seq<StageId>)
    requires Valid(s)
    ensures var r := SeedOrg(s, org, ids);
            && (r.Ok? <==> S.Seed(s.stages, org, ids).Ok?)
            && (r.Ok? ==>
                  && r.value.stages == S.Seed(s.stages, org, ids).value && |ids| == 5
                  && r.value == s.(stages := r.value.stages, rules := r.value.rules)
                  && r.value.rules ==
                     if org in s.rules then s.rules
                     else s.rules[org := Rules(Some(ids[1]), None, Some(ids[1]), None, None, None)])
  {
    if S.Seed(s.stages, org, ids).Ok? {
      S.SeedKeepsValid(s.stages, org, ids);
      assert S.ListStages(S.Seed(s.stages, org, ids).value, org) == ids;
    }
  }

  // ----- Incidents -----

  /** One incident row has been written and nothing else. */
  ghost predicate OnlyIncident(s: State, s': State, id: IncidentId) {
    id in s'.incidents && s' == s.(incidents := s.incidents[id := s'.incidents[id]])
  }

  lemma ReportOutcome(s: State, ss: Session, id: IncidentId)
    ensures var r := Report(s, ss, id);
            && (r.Ok? <==> id !in s.incidents)
            && (r.Ok? ==> OnlyIncident(s, r.value, id)
                          && r.value.incidents[id] == Incident(None, ss.user, None, None, 0, None))
  {}

  /** A claim writes the organisation, the approval, the stage and the version of the one incident. */
  lemma ClaimWrites(s: State, ss: Session, id: IncidentId, inArea: bool)
    requires S.Valid(s.stages) && Claim(s, ss, id, inArea).Ok?
    ensures id in s.incidents
    ensures var s', was := Claim(s, ss, id, inArea).value, s.incidents[id];
            && OnlyIncident(s, s', id)
            && IsClaimStage(s.stages, ss.org, s'.incidents[id].stage)
            && s'.incidents[id] == Incident(Some(ss.org), was.reporter, s'.incidents[id].stage, Some(Approved),
                                            was.version + 1, was.duplicateOf)
  {
    ClaimStageIs(s, ss.org);
  }

  /** A rejection writes the verdict, the version and, if a Dismissed stage exists, the stage. */
  lemma RejectWrites(s: State, ss: Session, id: IncidentId)
    requires Valid(s) && Reject(s, ss, id).Ok?
    ensures id in s.incidents
    ensures var s', was := Reject(s, ss, id).value, s.incidents[id];
            && OnlyIncident(s, s', id)
            && s'.incidents[id] == was.(verification := Some(Rejected), version := was.version + 1,
                                        stage := s'.incidents[id].stage)
            && ((forall d :: OwnStage(s.stages, ss.org, d) ==> s.stages[d].slug != "dismissed") ==>
                  s'.incidents[id].stage == was.stage)
            && (forall d :: OwnStage(s.stages, ss.org, d) && s.stages[d].slug == "dismissed" ==>
                  s'.incidents[id].stage == Some(d))
  {
    forall d | OwnStage(s.stages, ss.org, d) && s.stages[d].slug == "dismissed"
      ensures Reject(s, ss, id).value.incidents[id].stage == Some(d)
    {
      RejectOutcome(s, ss, id, d);
    }
  }

  /** An incident is marked as a duplicate exactly when both are the organisation's and it is approved;
      stage and version stay. */
  lemma MarkDuplicateOutcome(s: State, ss: Session, id: IncidentId, other: IncidentId)
    ensures var r := MarkDuplicate(s, ss, id, other);
            && (r.Ok? <==> && id in s.incidents && s.incidents[id].org == Some(ss.org)
                           && s.incidents[id].verification == Some(Approved)
                           && other in s.incidents && s.incidents[other].org == Some(ss.org))
            && (r.Ok? ==> OnlyIncident(s, r.value, id)
                          && r.value.incidents[id] ==
                             s.incidents[id].(verification := Some(Duplicate), duplicateOf := Some(other)))
  {}

  /** A manual move succeeds exactly on an incident of the organisation, to a stage of the organisation,
      if the version sent, if any, is still the incident's or nothing has to change. It writes the stage
      and the next version. */
  lemma UpdateStageOutcome(s: State, ss: Session, id: IncidentId, stage: StageId, expected: Option<nat>)
    requires Valid(s)
    ensures var r := UpdateStage(s, ss, id, stage, expected);
            && (r.Ok? <==> && id in s.incidents && s.incidents[id].org == Some(ss.org)
                           && OwnStage(s.stages, ss.org, stage)
                           && (s.incidents[id].stage == Some(stage) || expected.None?
                               || expected == Some(s.incidents[id].version)))
            && (r.Ok? && s.incidents[id].stage == Some(stage) ==> r.value == s)
            && (r.Ok? && s.incidents[id].stage != Some(stage) ==>
                  && OnlyIncident(s, r.value, id)
                  && r.value.incidents[id] ==
                     s.incidents[id].(stage := Some(stage), version := s.incidents[id].version + 1))
            && (r == Err(ModifiedConcurrently) ==>
                  id in s.incidents && expected.Some? && expected.value != s.incidents[id].version)
  {
    if id in s.incidents { assert IncidentOk(s.stages, s.incidents[id]); }
  }
}
