/** The incident lifecycle across services: claiming, triage, manual moves, and the automatic
    moves that tasks and events trigger under an organisation's stage rules. Every request is one
    transaction of a session that is not a platform admin; a run is a sequence of them. */
module Workflow {
  import opened Common
  import S = Stages

  type OrgId = S.OrgId
  type StageId = S.StageId
  type UserId = nat
  type IncidentId = nat
  type TaskId = nat
  type EventId = nat

  /** A stage table the database would commit: UNIQUE (organisation_id, position) holds. */
  type StageTable = t: S.Table | S.PositionsUnique(t) witness map[]

  datatype Verification = Approved | Rejected | Duplicate

  datatype Incident = Incident(
    org: Option<OrgId>,
    reporter: UserId,
    stage: Option<StageId>,
    verification: Option<Verification>,
    version: nat,
    duplicateOf: Option<IncidentId>)

  /** A row of `workflow_stage_rules`: required stages, and targets where `None` is "Automatic". */
  datatype Rules = Rules(
    taskMin: Option<StageId>, taskTarget: Option<StageId>,
    eventMin: Option<StageId>, eventTarget: Option<StageId>,
    taskDoneTarget: Option<StageId>, eventDoneTarget: Option<StageId>)

  datatype Trigger = TaskCreation | EventCreation | TaskCompletion | EventCompletion

  datatype Task = Task(org: OrgId, incident: IncidentId, done: bool)

  datatype Event = Event(org: OrgId, incidents: seq<IncidentId>, finished: bool)

  datatype State = State(
    stages: StageTable,
    rules: map<OrgId, Rules>,
    incidents: map<IncidentId, Incident>,
    tasks: map<TaskId, Task>,
    events: map<EventId, Event>)

  /** The tenant of the request; `admin` is the org-admin flag. */
  datatype Session = Session(org: OrgId, user: UserId, admin: bool)

  datatype Error =
    | NotFound
    | NotClaimed
    | AlreadyClaimed
    | OutsideServiceArea
    | NotActive
    | InvalidStage
    | ModifiedConcurrently
    | RowSecurityViolation
    | StageNotFound
    | FinalStage
    | WrongStage
    | StageInUse
    | StageInRule
    | AlreadyDone
    | KeyTaken
    | NothingLinked
    | Editor(error: S.StageError)

  // ----- Row-level security on incidents (migration 0027) -----

  predicate Visible(ss: Session, i: Incident) {
    i.org == Some(ss.org) || (i.org.None? && ss.admin) || i.reporter == ss.user
  }

  predicate WithCheck(ss: Session, i: Incident) {
    i.org == Some(ss.org) || i.org.None?
  }

  function PutIncident(s: State, id: IncidentId, i: Incident): State {
    s.(incidents := s.incidents[id := i])
  }

  /** UPDATE of a row the session sees: the new row must pass WITH CHECK. */
  function WriteIncident(s: State, ss: Session, id: IncidentId, i: Incident): Result<State, Error> {
    if WithCheck(ss, i) then Ok(PutIncident(s, id, i)) else Err(RowSecurityViolation)
  }

  function FindIncident(s: State, ss: Session, id: IncidentId): (r: Result<Incident, Error>)
    ensures r.Ok? ==> id in s.incidents && r.value == s.incidents[id]
  {
    if id in s.incidents && Visible(ss, s.incidents[id]) then Ok(s.incidents[id]) else Err(NotFound)
  }

  /** `findScoped`. */
  function OwnIncident(s: State, ss: Session, id: IncidentId): (r: Result<Incident, Error>)
    ensures r.Ok? ==> id in s.incidents && r.value == s.incidents[id] && r.value.org == Some(ss.org)
  {
    match FindIncident(s, ss, id)
    case Err(e) => Err(e)
    case Ok(i) => if i.org == Some(ss.org) then Ok(i) else Err(NotFound)
  }

  /** `WorkflowStagesService.findById`, which row-level security confines to the tenant. */
  function FindStage(s: State, org: OrgId, id: StageId): (r: Result<StageId, Error>)
    ensures r.Ok? ==> r.value == id && id in s.stages && s.stages[id].org == org
  {
    if id in s.stages && s.stages[id].org == org then Ok(id) else Err(StageNotFound)
  }

  // ----- Stage rules -----

  function ClaimStage(s: State, org: OrgId): Option<StageId> {
    var listing := S.ListStages(s.stages, org);
    if |listing| > 1 then Some(listing[1]) else if |listing| > 0 then Some(listing[0]) else None
  }

  /** `getRules` inserts the default row on first read. */
  function EnsureRules(s: State, org: OrgId): (s': State)
    ensures org in s'.rules && s' == s.(rules := s'.rules)
  {
    if org in s.rules then s else
      var stage := ClaimStage(s, org);
      s.(rules := s.rules[org := Rules(stage, None, stage, None, None, None)])
  }

  function MinOf(r: Rules, trigger: Trigger): Option<StageId> {
    match trigger
    case TaskCreation => r.taskMin
    case EventCreation => r.eventMin
    case _ => None
  }

  function TargetOf(r: Rules, trigger: Trigger): Option<StageId> {
    match trigger
    case TaskCreation => r.taskTarget
    case EventCreation => r.eventTarget
    case TaskCompletion => r.taskDoneTarget
    case EventCompletion => r.eventDoneTarget
  }

  /** `assertRequiredStage`: the state with the rules row, or the refusal. */
  function RequireStage(s: State, org: OrgId, trigger: Trigger, current: StageId): (r: Result<State, Error>)
    requires current in s.stages
    ensures r.Ok? ==> !s.stages[current].isFinal && r.value == EnsureRules(s, org)
  {
    if s.stages[current].isFinal then Err(FinalStage)
    else
      var s1 := EnsureRules(s, org);
      match MinOf(s1.rules[org], trigger)
      case None => Ok(s1)
      case Some(min) =>
        if FindStage(s1, org, min).Err? then Err(StageNotFound)
        else if current != min then Err(WrongStage)
        else Ok(s1)
  }

  /** `listEligibleStageIds`. */
  function EligibleStages(s: State, org: OrgId, trigger: Trigger): set<StageId> {
    var min := MinOf(EnsureRules(s, org).rules[org], trigger);
    set id | id in S.OfOrg(s.stages, org) && !s.stages[id].isFinal && (min.None? || id == min.value)
  }

  /** `resolveTarget`; `None` is "do nothing". */
  function ResolveTarget(s: State, org: OrgId, trigger: Trigger, current: StageId): Result<Option<StageId>, Error>
    requires current in s.stages
  {
    if s.stages[current].isFinal then Ok(None)
    else
      match TargetOf(EnsureRules(s, org).rules[org], trigger)
      case None => Ok(S.FindNext(s.stages, current))
      case Some(target) => if FindStage(s, org, target).Ok? then Ok(Some(target)) else Err(StageNotFound)
  }

  /** `advanceStage`, if the target leads somewhere else. An UPDATE of a row the session does
      not see changes nothing. */
  function MoveTo(s: State, ss: Session, id: IncidentId, current: StageId, target: Option<StageId>)
    : Result<State, Error>
    requires id in s.incidents
  {
    var i := s.incidents[id];
    if target.None? || target.value == current || !Visible(ss, i) then Ok(s)
    else WriteIncident(s, ss, id, i.(stage := target, version := i.version + 1))
  }

  /** What a trigger does to one incident on stage `current`. */
  function Advance(s: State, ss: Session, trigger: Trigger, id: IncidentId, current: StageId): (r: Result<State, Error>)
    requires current in s.stages && id in s.incidents
    ensures r.Ok? ==> r.value.stages == s.stages && r.value.incidents.Keys == s.incidents.Keys
  {
    match ResolveTarget(s, ss.org, trigger, current)
    case Err(e) => Err(e)
    case Ok(target) => MoveTo(if s.stages[current].isFinal then s else EnsureRules(s, ss.org), ss, id, current, target)
  }

  // ----- Requests on incidents -----

  function Report(s: State, ss: Session, id: IncidentId): Result<State, Error> {
    if id in s.incidents then Err(KeyTaken)
    else WriteIncident(s, ss, id, Incident(None, ss.user, None, None, 0, None))
  }

  function Claim(s: State, ss: Session, id: IncidentId, inArea: bool): Result<State, Error> {
    match FindIncident(s, ss, id)
    case Err(e) => Err(e)
    case Ok(i) =>
      if i.org.Some? then Err(AlreadyClaimed)
      else if !inArea then Err(OutsideServiceArea)
      else
        WriteIncident(s, ss, id, i.(org := Some(ss.org), verification := Some(Approved),
                                    stage := ClaimStage(s, ss.org), version := i.version + 1))
  }

  function DismissedStage(s: State, org: OrgId): (r: Option<StageId>)
    ensures r.Some? ==> r.value in S.OfOrg(s.stages, org) && s.stages[r.value].slug == "dismissed"
    ensures r.None? ==> forall id :: id in S.OfOrg(s.stages, org) ==> s.stages[id].slug != "dismissed"
  {
    var ids := set id | id in S.OfOrg(s.stages, org) && s.stages[id].slug == "dismissed";
    assert forall id :: id in S.OfOrg(s.stages, org) && s.stages[id].slug == "dismissed" ==> id in ids;
    First(ids)
  }

  function Reject(s: State, ss: Session, id: IncidentId): Result<State, Error> {
    match OwnIncident(s, ss, id)
    case Err(e) => Err(e)
    case Ok(i) =>
      if i.verification != Some(Approved) then Err(NotActive)
      else
        var dismissed := DismissedStage(s, ss.org);
        WriteIncident(s, ss, id, i.(verification := Some(Rejected), version := i.version + 1,
                                    stage := if dismissed.Some? then dismissed else i.stage))
  }

  /** The one write that leaves `version` alone. */
  function MarkDuplicate(s: State, ss: Session, id: IncidentId, other: IncidentId): Result<State, Error> {
    match OwnIncident(s, ss, id)
    case Err(e) => Err(e)
    case Ok(i) =>
      if i.verification != Some(Approved) then Err(NotActive)
      else if OwnIncident(s, ss, other).Err? then Err(NotFound)
      else WriteIncident(s, ss, id, i.(verification := Some(Duplicate), duplicateOf := Some(other)))
  }

  /** The manual move. The incident is loaded without a check of its organisation. */
  function UpdateStage(s: State, ss: Session, id: IncidentId, stage: StageId, expected: Option<nat>)
    : Result<State, Error>
  {
    match FindIncident(s, ss, id)
    case Err(e) => Err(e)
    case Ok(i) =>
      if i.org.None? then Err(NotClaimed)
      else if stage !in S.OfOrg(s.stages, ss.org) then Err(InvalidStage)
      else if i.stage == Some(stage) then Ok(s)
      else if expected.Some? && i.version != expected.value then Err(ModifiedConcurrently)
      else WriteIncident(s, ss, id, i.(stage := Some(stage), version := i.version + 1))
  }

  // ----- Requests that trigger an advance -----

  /** The precondition shared by task and event creation, for one incident. */
  function Linkable(s: State, ss: Session, trigger: Trigger, id: IncidentId): (r: Result<State, Error>)
    ensures r.Ok? ==> && OwnIncident(s, ss, id).Ok? && s.incidents[id].stage.Some?
                      && s.incidents[id].stage.value in s.stages && r.value == EnsureRules(s, ss.org)
  {
    match OwnIncident(s, ss, id)
    case Err(e) => Err(e)
    case Ok(i) =>
      if i.verification != Some(Approved) || i.stage.None? then Err(NotActive)
      else if FindStage(s, ss.org, i.stage.value).Err? then Err(StageNotFound)
      else RequireStage(s, ss.org, trigger, i.stage.value)
  }

  function CreateTask(s: State, ss: Session, task: TaskId, id: IncidentId): Result<State, Error> {
    match Linkable(s, ss, TaskCreation, id)
    case Err(e) => Err(e)
    case Ok(s1) =>
      if task in s.tasks then Err(KeyTaken)
      else Advance(s1.(tasks := s1.tasks[task := Task(ss.org, id, false)]), ss, TaskCreation, id,
          s.incidents[id].stage.value)
  }

  /** The tasks of the incident that are not completed, as the tenant sees them. */
  function OpenTasks(s: State, org: OrgId, id: IncidentId): set<TaskId> {
    set t | t in s.tasks && s.tasks[t].org == org && s.tasks[t].incident == id && !s.tasks[t].done
  }

  function CompleteTask(s: State, ss: Session, task: TaskId): Result<State, Error> {
    if task !in s.tasks || s.tasks[task].org != ss.org then Err(NotFound)
    else if s.tasks[task].done then Err(AlreadyDone)
    else
      var id := s.tasks[task].incident;
      var s1 := s.(tasks := s.tasks[task := s.tasks[task].(done := true)]);
      if OpenTasks(s1, ss.org, id) != {} then Ok(s1)
      else
        match FindIncident(s1, ss, id)
        case Err(e) => Err(e)
        case Ok(i) =>
          if i.org.None? || i.stage.None? then Ok(s1)
          else if FindStage(s1, ss.org, i.stage.value).Err? then Err(StageNotFound)
          else Advance(s1, ss, TaskCompletion, id, i.stage.value)
  }

  /** Every incident is checked before anything is written. */
  function LinkableAll(s: State, ss: Session, ids: seq<IncidentId>): (r: Result<State, Error>)
    ensures r.Ok? ==> r.value == s.(rules := r.value.rules)
    ensures r.Ok? ==> forall id :: id in ids ==>
              && id in s.incidents && s.incidents[id].org == Some(ss.org)
              && s.incidents[id].stage.Some? && s.incidents[id].stage.value in s.stages
  {
    if ids == [] then Ok(s) else
      match LinkableAll(s, ss, ids[..|ids| - 1])
      case Err(e) => Err(e)
      case Ok(s1) => Linkable(s1, ss, EventCreation, ids[|ids| - 1])
  }

  /** Then every incident advances from the stage it was found on. */
  function AdvanceAll(s: State, ss: Session, ids: seq<IncidentId>, found: map<IncidentId, StageId>)
    : (r: Result<State, Error>)
    requires forall id :: id in ids ==> id in s.incidents && id in found && found[id] in s.stages
    ensures r.Ok? ==> r.value.stages == s.stages && r.value.incidents.Keys == s.incidents.Keys
  {
    if ids == [] then Ok(s) else
      var last := |ids| - 1;
      assert forall id :: id in ids[..last] ==> id in ids;
      match AdvanceAll(s, ss, ids[..last], found)
      case Err(e) => Err(e)
      case Ok(s1) => Advance(s1, ss, EventCreation, ids[last], found[ids[last]])
  }

  predicate HasDuplicate(ids: seq<IncidentId>) {
    exists i: nat, j: nat | i < |ids| && j < i :: ids[i] == ids[j]
  }

  lemma NoDuplicateIsDistinct(ids: seq<IncidentId>)
    requires !HasDuplicate(ids)
    ensures Distinct(ids)
  {
    forall i, j | 0 <= i < j < |ids| ensures ids[i] != ids[j] { assert ids[j] != ids[i]; }
  }

  function FoundOn(s: State, ids: seq<IncidentId>): map<IncidentId, StageId>
    requires forall id :: id in ids ==> id in s.incidents && s.incidents[id].stage.Some?
  {
    map id | id in ids :: s.incidents[id].stage.value
  }

  function LinkEvent(s: State, ss: Session, event: EventId, ids: seq<IncidentId>): State {
    s.(events := s.events[event := Event(ss.org, ids, false)])
  }

  /** `event_incidents` has PRIMARY KEY (event_id, incident_id). */
  function CreateEvent(s: State, ss: Session, event: EventId, ids: seq<IncidentId>): Result<State, Error> {
    if ids == [] then Err(NothingLinked)
    else
      match LinkableAll(s, ss, ids)
      case Err(e) => Err(e)
      case Ok(s1) =>
        if event in s.events || HasDuplicate(ids) then Err(KeyTaken)
        else AdvanceAll(LinkEvent(s1, ss, event, ids), ss, ids, FoundOn(s, ids))
  }

  function FinishOne(s: State, ss: Session, id: IncidentId): Result<State, Error> {
    match OwnIncident(s, ss, id)
    case Err(e) => Err(e)
    case Ok(i) =>
      if i.stage.None? then Ok(s)
      else if FindStage(s, ss.org, i.stage.value).Err? then Err(StageNotFound)
      else Advance(s, ss, EventCompletion, id, i.stage.value)
  }

  function FinishAll(s: State, ss: Session, ids: seq<IncidentId>): Result<State, Error> {
    if ids == [] then Ok(s) else
      match FinishAll(s, ss, ids[..|ids| - 1])
      case Err(e) => Err(e)
      case Ok(s1) => FinishOne(s1, ss, ids[|ids| - 1])
  }

  /** Completing an event advances every linked incident. */
  function FinishEvent(s: State, ss: Session, event: EventId): Result<State, Error> {
    if event !in s.events || s.events[event].org != ss.org then Err(NotFound)
    else if s.events[event].finished then Err(AlreadyDone)
    else
      var e := s.events[event];
      FinishAll(s.(events := s.events[event := e.(finished := true)]), ss, e.incidents)
  }

  // ----- Requests on rules and stages -----

  /** Fields that are absent stay as they are. */
  datatype Patch = Patch(
    taskMin: Option<Option<StageId>>, taskTarget: Option<Option<StageId>>,
    eventMin: Option<Option<StageId>>, eventTarget: Option<Option<StageId>>,
    taskDoneTarget: Option<Option<StageId>>, eventDoneTarget: Option<Option<StageId>>)

  predicate PatchOk(s: State, org: OrgId, field: Option<Option<StageId>>) {
    field.Some? && field.value.Some? ==> field.value.value in S.OfOrg(s.stages, org)
  }

  function Patched(current: Option<StageId>, field: Option<Option<StageId>>): Option<StageId> {
    if field.Some? then field.value else current
  }

  predicate AllPatchOk(s: State, org: OrgId, p: Patch) {
    PatchOk(s, org, p.taskMin) && PatchOk(s, org, p.taskTarget) && PatchOk(s, org, p.eventMin)
    && PatchOk(s, org, p.eventTarget) && PatchOk(s, org, p.taskDoneTarget) && PatchOk(s, org, p.eventDoneTarget)
  }

  function Merged(r: Rules, p: Patch): Rules {
    Rules(Patched(r.taskMin, p.taskMin), Patched(r.taskTarget, p.taskTarget),
          Patched(r.eventMin, p.eventMin), Patched(r.eventTarget, p.eventTarget),
          Patched(r.taskDoneTarget, p.taskDoneTarget), Patched(r.eventDoneTarget, p.eventDoneTarget))
  }

  function UpdateRules(s: State, ss: Session, p: Patch): Result<State, Error> {
    var s1 := EnsureRules(s, ss.org);
    if AllPatchOk(s, ss.org, p) then Ok(s1.(rules := s1.rules[ss.org := Merged(s1.rules[ss.org], p)]))
    else Err(InvalidStage)
  }

  /** COMMIT checks the deferred constraint. */
  function CommitStages(s: State, r: Result<S.Table, S.StageError>): Result<State, Error> {
    match r
    case Err(e) => Err(Editor(e))
    case Ok(t) => if S.PositionsUnique(t) then Ok(s.(stages := t)) else Err(Editor(S.PositionConflictAtCommit))
  }

  function EditStage(s: State, ss: Session, id: StageId, isFinal: bool): Result<State, Error> {
    if FindStage(s, ss.org, id).Err? then Err(StageNotFound)
    else CommitStages(s, Ok(s.stages[id := s.stages[id].(isFinal := isFinal)]))
  }

  /** The incidents in a stage, as far as the session sees them. */
  function InUse(s: State, ss: Session, id: StageId): set<IncidentId> {
    set i | i in s.incidents && Visible(ss, s.incidents[i]) && s.incidents[i].stage == Some(id)
  }

  predicate Refers(r: Rules, id: StageId) {
    r.taskMin == Some(id) || r.taskTarget == Some(id) || r.eventMin == Some(id) || r.eventTarget == Some(id)
    || r.taskDoneTarget == Some(id) || r.eventDoneTarget == Some(id)
  }

  function Cleared(ref: Option<StageId>, id: StageId): Option<StageId> {
    if ref == Some(id) then None else ref
  }

  /** ON DELETE SET NULL on every reference to the stage. */
  function SetNull(s: State, id: StageId): State {
    s.(incidents := map i | i in s.incidents :: s.incidents[i].(stage := Cleared(s.incidents[i].stage, id)),
       rules := map o | o in s.rules ::
         Rules(Cleared(s.rules[o].taskMin, id), Cleared(s.rules[o].taskTarget, id),
               Cleared(s.rules[o].eventMin, id), Cleared(s.rules[o].eventTarget, id),
               Cleared(s.rules[o].taskDoneTarget, id), Cleared(s.rules[o].eventDoneTarget, id)))
  }

  function DeleteStage(s: State, ss: Session, id: StageId): Result<State, Error> {
    if FindStage(s, ss.org, id).Err? then Err(StageNotFound)
    else if InUse(s, ss, id) != {} then Err(StageInUse)
    else if ss.org in s.rules && Refers(s.rules[ss.org], id) then Err(StageInRule)
    else CommitStages(SetNull(s, id), Ok(S.Delete(s.stages, id)))
  }

  /** A new organisation gets the default stages and its rules row. */
  function SeedOrg(s: State, org: OrgId, ids: seq<StageId>): Result<State, Error> {
    match CommitStages(s, S.Seed(s.stages, org, ids))
    case Err(e) => Err(e)
    case Ok(s1) => Ok(EnsureRules(s1, org))
  }

  datatype Op =
    | OpReport(ss: Session, incident: IncidentId)
    | OpClaim(ss: Session, incident: IncidentId, inArea: bool)
    | OpReject(ss: Session, incident: IncidentId)
    | OpMarkDuplicate(ss: Session, incident: IncidentId, other: IncidentId)
    | OpUpdateStage(ss: Session, incident: IncidentId, stage: StageId, expected: Option<nat>)
    | OpCreateTask(ss: Session, task: TaskId, incident: IncidentId)
    | OpCompleteTask(ss: Session, task: TaskId)
    | OpCreateEvent(ss: Session, event: EventId, incidents: seq<IncidentId>)
    | OpFinishEvent(ss: Session, event: EventId)
    | OpReadRules(ss: Session)
    | OpUpdateRules(ss: Session, patch: Patch)
    | OpCreateStage(ss: Session, stage: StageId, baseSlug: string)
    | OpReorder(ss: Session, order: seq<StageId>)
    | OpEditStage(ss: Session, stage: StageId, isFinal: bool)
    | OpDeleteStage(ss: Session, stage: StageId)
    | OpSeedOrg(org: OrgId, ids: seq<StageId>)

  function Apply(s: State, op: Op): Result<State, Error> {
    match op
    case OpReport(ss, id) => Report(s, ss, id)
    case OpClaim(ss, id, inArea) => Claim(s, ss, id, inArea)
    case OpReject(ss, id) => Reject(s, ss, id)
    case OpMarkDuplicate(ss, id, other) => MarkDuplicate(s, ss, id, other)
    case OpUpdateStage(ss, id, stage, expected) => UpdateStage(s, ss, id, stage, expected)
    case OpCreateTask(ss, task, id) => CreateTask(s, ss, task, id)
    case OpCompleteTask(ss, task) => CompleteTask(s, ss, task)
    case OpCreateEvent(ss, event, ids) => CreateEvent(s, ss, event, ids)
    case OpFinishEvent(ss, event) => FinishEvent(s, ss, event)
    case OpReadRules(ss) => Ok(EnsureRules(s, ss.org))
    case OpUpdateRules(ss, patch) => UpdateRules(s, ss, patch)
    case OpCreateStage(ss, id, baseSlug) => CommitStages(s, S.Create(s.stages, ss.org, id, baseSlug))
    case OpReorder(ss, order) => CommitStages(s, S.Reorder(s.stages, ss.org, order))
    case OpEditStage(ss, id, isFinal) => EditStage(s, ss, id, isFinal)
    case OpDeleteStage(ss, id) => DeleteStage(s, ss, id)
    case OpSeedOrg(org, ids) => SeedOrg(s, org, ids)
  }

  function Step(s: State, op: Op): State {
    Settle(s, Apply(s, op))
  }

  function Run(s: State, ops: seq<Op>): State
    decreases |ops|
  {
    if ops == [] then s else Run(Step(s, ops[0]), ops[1..])
  }

  // ----- What every reachable state satisfies -----

  ghost predicate OwnedBy(t: S.Table, org: OrgId, ref: Option<StageId>) {
    ref.Some? ==> ref.value in t && t[ref.value].org == org
  }

  /** Every incident sits on a stage of its own organisation, or on none; it has a verification
      status exactly when it has been claimed. */
  ghost predicate IncidentOk(t: S.Table, i: Incident) {
    if i.org.None? then i.stage.None? && i.verification.None?
    else OwnedBy(t, i.org.value, i.stage) && i.verification.Some?
  }

  /** All six references of a rules row name stages of its organisation. */
  ghost predicate RulesOk(t: S.Table, org: OrgId, r: Rules) {
    && OwnedBy(t, org, r.taskMin) && OwnedBy(t, org, r.taskTarget)
    && OwnedBy(t, org, r.eventMin) && OwnedBy(t, org, r.eventTarget)
    && OwnedBy(t, org, r.taskDoneTarget) && OwnedBy(t, org, r.eventDoneTarget)
  }

  ghost predicate IncidentsOk(t: S.Table, incidents: map<IncidentId, Incident>) {
    forall i :: i in incidents ==> IncidentOk(t, incidents[i])
  }

  ghost predicate AllRulesOk(t: S.Table, rules: map<OrgId, Rules>) {
    forall o :: o in rules ==> RulesOk(t, o, rules[o])
  }

  /** Tasks and events belong to the organisation of their incidents. */
  ghost predicate LinksOk(s: State) {
    && (forall t :: t in s.tasks ==>
          s.tasks[t].incident in s.incidents && s.incidents[s.tasks[t].incident].org == Some(s.tasks[t].org))
    && (forall e, id :: e in s.events && id in s.events[e].incidents ==>
          id in s.incidents && s.incidents[id].org == Some(s.events[e].org))
    && (forall e :: e in s.events ==> Distinct(s.events[e].incidents))
  }

  ghost predicate Valid(s: State) {
    S.Valid(s.stages) && IncidentsOk(s.stages, s.incidents) && AllRulesOk(s.stages, s.rules) && LinksOk(s)
  }

  lemma ClaimStageIsOwn(s: State, org: OrgId)
    ensures OwnedBy(s.stages, org, ClaimStage(s, org))
  {
    var listing := S.ListStages(s.stages, org);
    assert forall k :: 0 <= k < |listing| ==> listing[k] in S.OfOrg(s.stages, org);
  }

  lemma EnsuredRulesOk(s: State, org: OrgId)
    requires AllRulesOk(s.stages, s.rules)
    ensures AllRulesOk(s.stages, EnsureRules(s, org).rules)
    ensures RulesOk(s.stages, org, EnsureRules(s, org).rules[org])
  {
    if org !in s.rules { ClaimStageIsOwn(s, org); }
  }

  lemma PutRulesKeepsValid(s: State, rules: map<OrgId, Rules>)
    requires Valid(s) && AllRulesOk(s.stages, rules)
    ensures Valid(s.(rules := rules))
  {}

  lemma EnsureRulesKeepsValid(s: State, org: OrgId)
    requires Valid(s)
    ensures Valid(EnsureRules(s, org)) && RulesOk(s.stages, org, EnsureRules(s, org).rules[org])
  {
    EnsuredRulesOk(s, org);
    PutRulesKeepsValid(s, EnsureRules(s, org).rules);
  }

  lemma PutIncidentKeepsValid(s: State, id: IncidentId, i: Incident)
    requires Valid(s) && IncidentOk(s.stages, i)
    requires id in s.incidents && s.incidents[id].org.Some? ==> i.org == s.incidents[id].org
    ensures Valid(PutIncident(s, id, i))
  {}

  /** No rule ever leads to a stage that is missing or foreign. */
  lemma TargetIsOwn(s: State, org: OrgId, trigger: Trigger, current: StageId)
    requires Valid(s) && current in s.stages && s.stages[current].org == org
    ensures ResolveTarget(s, org, trigger, current).Ok?
    ensures OwnedBy(s.stages, org, ResolveTarget(s, org, trigger, current).value)
  {
    EnsureRulesKeepsValid(s, org);
  }

  /** The row an advance leaves behind. */
  function Moved(i: Incident, current: StageId, target: Option<StageId>): Incident {
    if target.None? || target.value == current then i else i.(stage := target, version := i.version + 1)
  }

  lemma MoveToKeepsValid(s: State, ss: Session, id: IncidentId, current: StageId, target: Option<StageId>)
    requires Valid(s) && id in s.incidents && s.incidents[id].org == Some(ss.org)
    requires OwnedBy(s.stages, ss.org, target)
    ensures MoveTo(s, ss, id, current, target) == Ok(PutIncident(s, id, Moved(s.incidents[id], current, target)))
    ensures Valid(MoveTo(s, ss, id, current, target).value)
  {
    assert s.incidents[id := s.incidents[id]] == s.incidents;
    PutIncidentKeepsValid(s, id, Moved(s.incidents[id], current, target));
  }

  /** On an own incident an advance always succeeds and touches only that incident and the
      rules row. */
  lemma AdvanceKeepsValid(s: State, ss: Session, trigger: Trigger, id: IncidentId, current: StageId)
    requires Valid(s) && id in s.incidents && s.incidents[id].org == Some(ss.org)
    requires current in s.stages && s.stages[current].org == ss.org
    ensures ResolveTarget(s, ss.org, trigger, current).Ok? && Advance(s, ss, trigger, id, current).Ok?
    ensures var s' := Advance(s, ss, trigger, id, current).value;
            var target := ResolveTarget(s, ss.org, trigger, current).value;
            && Valid(s')
            && s' == s.(rules := s'.rules, incidents := s.incidents[id := Moved(s.incidents[id], current, target)])
  {
    TargetIsOwn(s, ss.org, trigger, current);
    var s1 := if s.stages[current].isFinal then s else EnsureRules(s, ss.org);
    EnsureRulesKeepsValid(s, ss.org);
    MoveToKeepsValid(s1, ss, id, current, ResolveTarget(s, ss.org, trigger, current).value);
  }

  lemma ClaimKeepsValid(s: State, ss: Session, id: IncidentId, inArea: bool)
    requires Valid(s) && Claim(s, ss, id, inArea).Ok?
    ensures Valid(Claim(s, ss, id, inArea).value)
  {
    ClaimStageIsOwn(s, ss.org);
    PutIncidentKeepsValid(s, id, Claim(s, ss, id, inArea).value.incidents[id]);
  }

  lemma TriageKeepsValid(s: State, ss: Session, id: IncidentId, other: IncidentId)
    requires Valid(s)
    ensures Reject(s, ss, id).Ok? ==> Valid(Reject(s, ss, id).value)
    ensures MarkDuplicate(s, ss, id, other).Ok? ==> Valid(MarkDuplicate(s, ss, id, other).value)
  {
    if Reject(s, ss, id).Ok? { PutIncidentKeepsValid(s, id, Reject(s, ss, id).value.incidents[id]); }
    if MarkDuplicate(s, ss, id, other).Ok? {
      PutIncidentKeepsValid(s, id, MarkDuplicate(s, ss, id, other).value.incidents[id]);
    }
  }

  /** The manual move never reaches an incident of another organisation: the session may see it,
      as its reporter, but the new row fails WITH CHECK. */
  lemma ForeignMoveIsStopped(s: State, ss: Session, id: IncidentId, stage: StageId, expected: Option<nat>)
    requires Valid(s) && id in s.incidents && s.incidents[id].org.Some? && s.incidents[id].org != Some(ss.org)
    ensures UpdateStage(s, ss, id, stage, expected).Err?
    ensures Visible(ss, s.incidents[id]) && stage in S.OfOrg(s.stages, ss.org)
            && (expected.Some? ==> expected.value == s.incidents[id].version)
            ==> UpdateStage(s, ss, id, stage, expected) == Err(RowSecurityViolation)
  {
    assert IncidentOk(s.stages, s.incidents[id]);
  }

  /** The clause is what saves ownership: written without it, every such move would leave an
      incident on a stage of another organisation. */
  lemma UncheckedMoveBreaksOwnership(s: State, ss: Session, id: IncidentId, stage: StageId)
    requires id in s.incidents && s.incidents[id].org.Some? && s.incidents[id].org != Some(ss.org)
    requires stage in S.OfOrg(s.stages, ss.org)
    ensures var i := s.incidents[id]; !Valid(PutIncident(s, id, i.(stage := Some(stage), version := i.version + 1)))
  {
    var i := s.incidents[id].(stage := Some(stage), version := s.incidents[id].version + 1);
    assert !IncidentOk(s.stages, PutIncident(s, id, i).incidents[id]);
  }

  lemma UpdateStageKeepsValid(s: State, ss: Session, id: IncidentId, stage: StageId, expected: Option<nat>)
    requires Valid(s) && UpdateStage(s, ss, id, stage, expected).Ok?
    ensures Valid(UpdateStage(s, ss, id, stage, expected).value)
  {
    var s' := UpdateStage(s, ss, id, stage, expected).value;
    if s' != s {
      if s.incidents[id].org != Some(ss.org) { ForeignMoveIsStopped(s, ss, id, stage, expected); }
      PutIncidentKeepsValid(s, id, s'.incidents[id]);
    }
  }

  lemma PutTaskKeepsValid(s: State, task: TaskId, row: Task)
    requires Valid(s) && row.incident in s.incidents && s.incidents[row.incident].org == Some(row.org)
    ensures Valid(s.(tasks := s.tasks[task := row]))
  {}

  lemma PutEventKeepsValid(s: State, event: EventId, row: Event)
    requires Valid(s) && Distinct(row.incidents)
    requires forall id :: id in row.incidents ==> id in s.incidents && s.incidents[id].org == Some(row.org)
    ensures Valid(s.(events := s.events[event := row]))
  {}

  lemma LinkableStage(s: State, ss: Session, trigger: Trigger, id: IncidentId)
    requires Valid(s) && Linkable(s, ss, trigger, id).Ok?
    ensures s.incidents[id].org == Some(ss.org)
    ensures s.incidents[id].stage.value in s.stages && s.stages[s.incidents[id].stage.value].org == ss.org
  {
    assert IncidentOk(s.stages, s.incidents[id]);
  }

  /** What makes an incident fit for a task or an event: it is the organisation's, approved, and
      on one of the stages listed as eligible. */
  predicate Qualifies(s: State, org: OrgId, trigger: Trigger, id: IncidentId) {
    && id in s.incidents && s.incidents[id].org == Some(org) && s.incidents[id].verification == Some(Approved)
    && s.incidents[id].stage.Some? && s.incidents[id].stage.value in EligibleStages(s, org, trigger)
  }

  lemma LinkableUnfolds(s: State, ss: Session, trigger: Trigger, id: IncidentId)
    ensures Linkable(s, ss, trigger, id).Ok? <==>
              && id in s.incidents && s.incidents[id].org == Some(ss.org)
              && s.incidents[id].verification == Some(Approved)
              && s.incidents[id].stage.Some? && FindStage(s, ss.org, s.incidents[id].stage.value).Ok?
              && RequireStage(s, ss.org, trigger, s.incidents[id].stage.value).Ok?
  {}

  lemma LinkableIffQualifies(s: State, ss: Session, trigger: Trigger, id: IncidentId)
    requires AllRulesOk(s.stages, s.rules) && IncidentsOk(s.stages, s.incidents)
    ensures Linkable(s, ss, trigger, id).Ok? <==> Qualifies(s, ss.org, trigger, id)
  {
    LinkableUnfolds(s, ss, trigger, id);
    if id in s.incidents && s.incidents[id].org == Some(ss.org) && s.incidents[id].stage.Some? {
      assert IncidentOk(s.stages, s.incidents[id]);
      GateMirrorsList(s, ss.org, trigger, s.incidents[id].stage.value);
    }
  }

  lemma QualifiesStable(s: State, s1: State, org: OrgId, trigger: Trigger, id: IncidentId)
    requires s1 == s.(rules := s1.rules) && RulesSettled(s, s1, org)
    ensures Qualifies(s1, org, trigger, id) <==> Qualifies(s, org, trigger, id)
  {}

  /** The first loop of event creation accepts a list exactly when every incident in it
      qualifies; that it may insert the rules row on the way makes no difference. */
  lemma {:induction false} LinkableAllIff(s: State, ss: Session, ids: seq<IncidentId>)
    requires Valid(s)
    ensures LinkableAll(s, ss, ids).Ok? <==> forall id :: id in ids ==> Qualifies(s, ss.org, EventCreation, id)
  {
    if ids != [] {
      var last := |ids| - 1;
      assert ids == ids[..last] + [ids[last]];
      LinkableAllIff(s, ss, ids[..last]);
      if LinkableAll(s, ss, ids[..last]).Ok? {
        LinkableAllStages(s, ss, ids[..last]);
        LinkableAllRules(s, ss, ids[..last]);
        var s1 := LinkableAll(s, ss, ids[..last]).value;
        LinkableIffQualifies(s1, ss, EventCreation, ids[last]);
        QualifiesStable(s, s1, ss.org, EventCreation, ids[last]);
      }
    }
  }

  /** Once an incident qualifies, nothing downstream can fail: the advance after a creation
      always succeeds. */
  lemma CreateTaskSucceeds(s: State, ss: Session, task: TaskId, id: IncidentId)
    requires Valid(s)
    ensures CreateTask(s, ss, task, id).Ok? <==> Qualifies(s, ss.org, TaskCreation, id) && task !in s.tasks
    ensures CreateTask(s, ss, task, id).Ok? ==> Valid(CreateTask(s, ss, task, id).value)
  {
    LinkableIffQualifies(s, ss, TaskCreation, id);
    if Linkable(s, ss, TaskCreation, id).Ok? && task !in s.tasks {
      LinkableStage(s, ss, TaskCreation, id);
      EnsureRulesKeepsValid(s, ss.org);
      var s1 := EnsureRules(s, ss.org);
      PutTaskKeepsValid(s1, task, Task(ss.org, id, false));
      AdvanceKeepsValid(s1.(tasks := s1.tasks[task := Task(ss.org, id, false)]), ss, TaskCreation, id,
          s.incidents[id].stage.value);
    }
  }

  /** "Completion must always succeed on its own terms": once the task itself may be completed,
      no rule, stage or visibility problem further down can make the request fail. What the task
      itself must satisfy is the business of `Tasks`; `Completion` joins the two. */
  lemma CompleteTaskSucceeds(s: State, ss: Session, task: TaskId)
    requires Valid(s)
    ensures CompleteTask(s, ss, task).Ok? <==> task in s.tasks && s.tasks[task].org == ss.org && !s.tasks[task].done
    ensures CompleteTask(s, ss, task).Ok? ==> Valid(CompleteTask(s, ss, task).value)
  {
    if task in s.tasks && s.tasks[task].org == ss.org && !s.tasks[task].done {
      var row := s.tasks[task].(done := true);
      var s1 := s.(tasks := s.tasks[task := row]);
      PutTaskKeepsValid(s, task, row);
      var i := s1.incidents[row.incident];
      assert IncidentOk(s1.stages, i);
      if i.stage.Some? { AdvanceKeepsValid(s1, ss, TaskCompletion, row.incident, i.stage.value); }
    }
  }

  lemma {:induction false} LinkableAllStages(s: State, ss: Session, ids: seq<IncidentId>)
    requires Valid(s) && LinkableAll(s, ss, ids).Ok?
    ensures Valid(LinkableAll(s, ss, ids).value)
    ensures forall id :: id in ids ==> s.stages[s.incidents[id].stage.value].org == ss.org
  {
    if ids != [] {
      var last := |ids| - 1;
      LinkableAllStages(s, ss, ids[..last]);
      var s1 := LinkableAll(s, ss, ids[..last]).value;
      LinkableStage(s1, ss, EventCreation, ids[last]);
      EnsureRulesKeepsValid(s1, ss.org);
      assert ids == ids[..last] + [ids[last]];
    }
  }

  ghost predicate SameOwners(s: State, s': State) {
    && s' == s.(rules := s'.rules, incidents := s'.incidents) && s'.incidents.Keys == s.incidents.Keys
    && forall i :: i in s.incidents ==> s'.incidents[i].org == s.incidents[i].org
  }

  /** What the first loop of event creation establishes. */
  ghost predicate AllFound(s: State, org: OrgId, ids: seq<IncidentId>, found: map<IncidentId, StageId>) {
    forall id :: id in ids ==>
      && id in s.incidents && s.incidents[id].org == Some(org)
      && id in found && found[id] in s.stages && s.stages[found[id]].org == org
      && s.incidents[id].stage == Some(found[id])
  }

  lemma FoundPrefix(s: State, org: OrgId, ids: seq<IncidentId>, found: map<IncidentId, StageId>)
    requires AllFound(s, org, ids, found) && ids != []
    ensures AllFound(s, org, ids[..|ids| - 1], found)
    ensures var id := ids[|ids| - 1];
            && id in s.incidents && s.incidents[id].org == Some(org) && id in found
            && found[id] in s.stages && s.stages[found[id]].org == org && s.incidents[id].stage == Some(found[id])
  {}

  lemma {:induction false} AdvanceAllSucceeds(s: State, ss: Session, ids: seq<IncidentId>,
      found: map<IncidentId, StageId>)
    requires Valid(s) && AllFound(s, ss.org, ids, found)
    ensures AdvanceAll(s, ss, ids, found).Ok?
    ensures Valid(AdvanceAll(s, ss, ids, found).value) && SameOwners(s, AdvanceAll(s, ss, ids, found).value)
  {
    if ids != [] {
      var last := |ids| - 1;
      FoundPrefix(s, ss.org, ids, found);
      AdvanceAllSucceeds(s, ss, ids[..last], found);
      var s1 := AdvanceAll(s, ss, ids[..last], found).value;
      AdvanceKeepsValid(s1, ss, EventCreation, ids[last], found[ids[last]]);
    }
  }

  lemma CreateEventSucceeds(s: State, ss: Session, event: EventId, ids: seq<IncidentId>)
    requires Valid(s)
    ensures CreateEvent(s, ss, event, ids).Ok? <==>
              && ids != [] && event !in s.events && !HasDuplicate(ids)
              && forall id :: id in ids ==> Qualifies(s, ss.org, EventCreation, id)
    ensures CreateEvent(s, ss, event, ids).Ok? ==> Valid(CreateEvent(s, ss, event, ids).value)
  {
    LinkableAllIff(s, ss, ids);
    if ids != [] && LinkableAll(s, ss, ids).Ok? && event !in s.events && !HasDuplicate(ids) {
      LinkableAllStages(s, ss, ids);
      var s1 := LinkableAll(s, ss, ids).value;
      NoDuplicateIsDistinct(ids);
      PutEventKeepsValid(s1, event, Event(ss.org, ids, false));
      AdvanceAllSucceeds(LinkEvent(s1, ss, event, ids), ss, ids, FoundOn(s, ids));
    }
  }

  lemma FinishOneSucceeds(s: State, ss: Session, id: IncidentId)
    requires Valid(s) && id in s.incidents && s.incidents[id].org == Some(ss.org)
    ensures FinishOne(s, ss, id).Ok?
    ensures Valid(FinishOne(s, ss, id).value) && SameOwners(s, FinishOne(s, ss, id).value)
  {
    var i := s.incidents[id];
    assert IncidentOk(s.stages, i);
    if i.stage.Some? { AdvanceKeepsValid(s, ss, EventCompletion, id, i.stage.value); }
  }

  lemma {:induction false} FinishAllSucceeds(s: State, ss: Session, ids: seq<IncidentId>)
    requires Valid(s) && forall id :: id in ids ==> id in s.incidents && s.incidents[id].org == Some(ss.org)
    ensures FinishAll(s, ss, ids).Ok?
    ensures Valid(FinishAll(s, ss, ids).value) && SameOwners(s, FinishAll(s, ss, ids).value)
  {
    if ids != [] {
      var last := |ids| - 1;
      FinishAllSucceeds(s, ss, ids[..last]);
      assert ids[last] in ids;
      FinishOneSucceeds(FinishAll(s, ss, ids[..last]).value, ss, ids[last]);
    }
  }

  /** The same for events: once its status allows it, completing one never fails on any of its
      incidents. */
  lemma FinishEventSucceeds(s: State, ss: Session, event: EventId)
    requires Valid(s)
    ensures FinishEvent(s, ss, event).Ok? <==>
        event in s.events && s.events[event].org == ss.org && !s.events[event].finished
    ensures FinishEvent(s, ss, event).Ok? ==> Valid(FinishEvent(s, ss, event).value)
  {
    if event in s.events && s.events[event].org == ss.org && !s.events[event].finished {
      var e := s.events[event].(finished := true);
      PutEventKeepsValid(s, event, e);
      FinishAllSucceeds(s.(events := s.events[event := e]), ss, e.incidents);
    }
  }

  lemma MergedOk(s: State, org: OrgId, r: Rules, p: Patch)
    requires RulesOk(s.stages, org, r) && AllPatchOk(s, org, p)
    ensures RulesOk(s.stages, org, Merged(r, p))
  {}

  lemma UpdateRulesKeepsValid(s: State, ss: Session, p: Patch)
    requires Valid(s) && UpdateRules(s, ss, p).Ok?
    ensures Valid(UpdateRules(s, ss, p).value)
  {
    EnsureRulesKeepsValid(s, ss.org);
    var s1 := EnsureRules(s, ss.org);
    MergedOk(s, ss.org, s1.rules[ss.org], p);
    PutRulesKeepsValid(s1, s1.rules[ss.org := Merged(s1.rules[ss.org], p)]);
  }

  /** An edit that keeps every stage in its organisation keeps every reference good. */
  lemma PutStagesKeepsValid(s: State, t: StageTable)
    requires Valid(s) && S.Valid(t)
    requires forall id :: id in s.stages ==> id in t && t[id].org == s.stages[id].org
    ensures Valid(s.(stages := t))
  {
    forall i | i in s.incidents ensures IncidentOk(t, s.incidents[i]) { assert IncidentOk(s.stages, s.incidents[i]); }
    forall o | o in s.rules ensures RulesOk(t, o, s.rules[o]) { assert RulesOk(s.stages, o, s.rules[o]); }
  }

  lemma EditKeepsStagesValid(t: S.Table, id: StageId, isFinal: bool)
    requires S.Valid(t) && id in t
    ensures S.Valid(t[id := t[id].(isFinal := isFinal)])
  {
    var t' := t[id := t[id].(isFinal := isFinal)];
    forall org ensures S.InRange(t', org) {
      assert S.InRange(t, org);
      assert S.OfOrg(t', org) == S.OfOrg(t, org);
    }
  }

  lemma CreateStageKeepsValid(s: State, ss: Session, id: StageId, baseSlug: string)
    requires Valid(s) && Apply(s, OpCreateStage(ss, id, baseSlug)).Ok?
    ensures Valid(Apply(s, OpCreateStage(ss, id, baseSlug)).value)
  {
    S.CreateKeepsValid(s.stages, ss.org, id, baseSlug);
    var t: StageTable := S.Create(s.stages, ss.org, id, baseSlug).value;
    PutStagesKeepsValid(s, t);
  }

  lemma ReorderKeepsValid(s: State, ss: Session, order: seq<StageId>)
    requires Valid(s) && Apply(s, OpReorder(ss, order)).Ok?
    ensures Valid(Apply(s, OpReorder(ss, order)).value)
  {
    S.ReorderKeepsValid(s.stages, ss.org, order);
    var t: StageTable := S.Reorder(s.stages, ss.org, order).value;
    PutStagesKeepsValid(s, t);
  }

  lemma EditStageKeepsValid(s: State, ss: Session, id: StageId, isFinal: bool)
    requires Valid(s) && EditStage(s, ss, id, isFinal).Ok?
    ensures Valid(EditStage(s, ss, id, isFinal).value)
  {
    EditKeepsStagesValid(s.stages, id, isFinal);
    var t: StageTable := s.stages[id := s.stages[id].(isFinal := isFinal)];
    PutStagesKeepsValid(s, t);
  }

  function Holders(s: State, id: StageId): set<IncidentId> {
    set i | i in s.incidents && s.incidents[i].stage == Some(id)
  }

  /** The in-use count is confined to what the session sees, and still counts every holder. */
  lemma InUseSeesEveryHolder(s: State, ss: Session, id: StageId)
    requires IncidentsOk(s.stages, s.incidents) && FindStage(s, ss.org, id).Ok?
    ensures InUse(s, ss, id) == Holders(s, id)
  {
    forall i | i in s.incidents && s.incidents[i].stage == Some(id) ensures Visible(ss, s.incidents[i]) {
      assert IncidentOk(s.stages, s.incidents[i]);
    }
  }

  lemma SetNullOnUnused(s: State, id: StageId)
    requires forall i :: i in s.incidents ==> s.incidents[i].stage != Some(id)
    requires forall o :: o in s.rules ==> !Refers(s.rules[o], id)
    ensures SetNull(s, id) == s
  {
    assert SetNull(s, id).incidents == s.incidents;
    assert SetNull(s, id).rules == s.rules;
  }

  lemma OnlyOwnRulesRefer(s: State, org: OrgId, id: StageId)
    requires AllRulesOk(s.stages, s.rules) && id in s.stages && s.stages[id].org == org
    requires org in s.rules ==> !Refers(s.rules[org], id)
    ensures forall o :: o in s.rules ==> !Refers(s.rules[o], id)
  {
    forall o | o in s.rules ensures !Refers(s.rules[o], id) { assert RulesOk(s.stages, o, s.rules[o]); }
  }

  /** So ON DELETE SET NULL never fires: whatever a successful delete finds, no incident and no
      rule of any organisation refers to the stage. */
  lemma SetNullNeverFires(s: State, ss: Session, id: StageId)
    requires Valid(s) && DeleteStage(s, ss, id).Ok?
    ensures SetNull(s, id) == s
    ensures forall i :: i in s.incidents ==> s.incidents[i].stage != Some(id)
    ensures forall o :: o in s.rules ==> !Refers(s.rules[o], id)
  {
    assert FindStage(s, ss.org, id).Ok? && InUse(s, ss, id) == {}
        && (ss.org in s.rules ==> !Refers(s.rules[ss.org], id));
    InUseSeesEveryHolder(s, ss, id);
    OnlyOwnRulesRefer(s, ss.org, id);
    assert forall i :: i in s.incidents && s.incidents[i].stage == Some(id) ==> i in Holders(s, id);
    SetNullOnUnused(s, id);
  }

  lemma DeleteStageKeepsValid(s: State, ss: Session, id: StageId)
    requires Valid(s) && DeleteStage(s, ss, id).Ok?
    ensures Valid(DeleteStage(s, ss, id).value)
    ensures DeleteStage(s, ss, id).value == s.(stages := S.Delete(s.stages, id))
  {
    SetNullNeverFires(s, ss, id);
    S.DeleteKeepsValid(s.stages, id);
    var t := S.Delete(s.stages, id);
    forall i | i in s.incidents ensures IncidentOk(t, s.incidents[i]) { assert IncidentOk(s.stages, s.incidents[i]); }
    forall o | o in s.rules ensures RulesOk(t, o, s.rules[o]) { assert RulesOk(s.stages, o, s.rules[o]); }
  }

  lemma SeedOrgKeepsValid(s: State, org: OrgId, ids: seq<StageId>)
    requires Valid(s) && SeedOrg(s, org, ids).Ok?
    ensures Valid(SeedOrg(s, org, ids).value)
  {
    S.SeedKeepsValid(s.stages, org, ids);
    S.SeededMembers(s.stages, org, ids);
    var s1 := s.(stages := S.Seed(s.stages, org, ids).value);
    PutStagesKeepsValid(s, s1.stages);
    EnsureRulesKeepsValid(s1, org);
  }

  lemma StepKeepsValid(s: State, op: Op)
    requires Valid(s)
    ensures Valid(Step(s, op))
  {
    if Apply(s, op).Ok? {
      match op
      case OpReport(ss, id) => PutIncidentKeepsValid(s, id, Incident(None, ss.user, None, None, 0, None));
      case OpClaim(ss, id, inArea) => ClaimKeepsValid(s, ss, id, inArea);
      case OpReject(ss, id) => TriageKeepsValid(s, ss, id, id);
      case OpMarkDuplicate(ss, id, other) => TriageKeepsValid(s, ss, id, other);
      case OpUpdateStage(ss, id, stage, expected) => UpdateStageKeepsValid(s, ss, id, stage, expected);
      case OpCreateTask(ss, task, id) => CreateTaskSucceeds(s, ss, task, id);
      case OpCompleteTask(ss, task) => CompleteTaskSucceeds(s, ss, task);
      case OpCreateEvent(ss, event, ids) => CreateEventSucceeds(s, ss, event, ids);
      case OpFinishEvent(ss, event) => FinishEventSucceeds(s, ss, event);
      case OpReadRules(ss) => EnsureRulesKeepsValid(s, ss.org);
      case OpUpdateRules(ss, patch) => UpdateRulesKeepsValid(s, ss, patch);
      case OpCreateStage(ss, id, baseSlug) => CreateStageKeepsValid(s, ss, id, baseSlug);
      case OpReorder(ss, order) => ReorderKeepsValid(s, ss, order);
      case OpEditStage(ss, id, isFinal) => EditStageKeepsValid(s, ss, id, isFinal);
      case OpDeleteStage(ss, id) => DeleteStageKeepsValid(s, ss, id);
      case OpSeedOrg(org, ids) => SeedOrgKeepsValid(s, org, ids);
    }
  }

  /** Over every run of every service: positions stay contiguous, every incident sits on a stage
      of its own organisation or on none, all rule references name stages of their organisation,
      and tasks and events stay with the organisation of their incidents. */
  lemma {:induction false} RunKeepsValid(s: State, ops: seq<Op>)
    requires Valid(s)
    ensures Valid(Run(s, ops))
    decreases |ops|
  {
    if ops != [] {
      StepKeepsValid(s, ops[0]);
      RunKeepsValid(Step(s, ops[0]), ops[1..]);
    }
  }

  /** Stage ownership, spelled out: a non-null current stage exists and belongs to the
      organisation that has claimed the incident. */
  lemma IncidentStagesAreOwn(s: State, ops: seq<Op>, id: IncidentId)
    requires Valid(s) && id in Run(s, ops).incidents && Run(s, ops).incidents[id].stage.Some?
    ensures var s' := Run(s, ops);
            var i := s'.incidents[id];
            i.org.Some? && i.stage.value in s'.stages && s'.stages[i.stage.value].org == i.org.value
  {
    RunKeepsValid(s, ops);
    assert IncidentOk(Run(s, ops).stages, Run(s, ops).incidents[id]);
  }

  /** Every stage that a rules row refers to, in any of its six columns, is one of its own
      organisation. */
  lemma RuleReferencesAreOwn(s: State, ops: seq<Op>, org: OrgId, id: StageId)
    requires Valid(s) && org in Run(s, ops).rules && Refers(Run(s, ops).rules[org], id)
    ensures id in Run(s, ops).stages && Run(s, ops).stages[id].org == org
  {
    RunKeepsValid(s, ops);
    assert RulesOk(Run(s, ops).stages, org, Run(s, ops).rules[org]);
  }

  /** The positions of an organisation's n stages are exactly 0..n-1 after every run. */
  lemma PositionsStayContiguous(s: State, ops: seq<Op>, org: OrgId)
    requires Valid(s)
    ensures S.Positions(Run(s, ops).stages, org) == Below(|S.OfOrg(Run(s, ops).stages, org)|)
  {
    RunKeepsValid(s, ops);
    S.ValidIsContiguous(Run(s, ops).stages, org);
  }

  // ----- What a request does to the incidents -----

  lemma MinIsOwn(s: State, org: OrgId, trigger: Trigger)
    requires AllRulesOk(s.stages, s.rules)
    ensures OwnedBy(s.stages, org, MinOf(EnsureRules(s, org).rules[org], trigger))
  {
    EnsuredRulesOk(s, org);
  }

  lemma OwnGateMirrorsList(s: State, org: OrgId, trigger: Trigger, current: StageId)
    requires OwnedBy(s.stages, org, MinOf(EnsureRules(s, org).rules[org], trigger)) && current in S.OfOrg(s.stages, org)
    ensures RequireStage(s, org, trigger, current).Ok? <==> current in EligibleStages(s, org, trigger)
    ensures RequireStage(s, org, trigger, current) != Err(StageNotFound)
  {}

  /** `listEligibleStageIds` mirrors `assertRequiredStage`: a stage of the organisation is
      accepted exactly when it is listed, and the required stage is always found. */
  lemma GateMirrorsList(s: State, org: OrgId, trigger: Trigger, current: StageId)
    requires AllRulesOk(s.stages, s.rules) && current in S.OfOrg(s.stages, org)
    ensures RequireStage(s, org, trigger, current).Ok? <==> current in EligibleStages(s, org, trigger)
    ensures RequireStage(s, org, trigger, current) != Err(StageNotFound)
  {
    MinIsOwn(s, org, trigger);
    OwnGateMirrorsList(s, org, trigger, current);
  }

  /** The row that a trigger leaves of an incident of the organisation. */
  function MovedBy(s: State, org: OrgId, trigger: Trigger, i: Incident): Incident {
    if i.stage.None? || i.stage.value !in s.stages || ResolveTarget(s, org, trigger, i.stage.value).Err? then i
    else Moved(i, i.stage.value, ResolveTarget(s, org, trigger, i.stage.value).value)
  }

  function Swept(s: State, org: OrgId, trigger: Trigger, ids: seq<IncidentId>): map<IncidentId, Incident> {
    map i | i in s.incidents :: if i in ids then MovedBy(s, org, trigger, s.incidents[i]) else s.incidents[i]
  }

  /** The lazily inserted rules row does not change where a trigger leads. */
  lemma TargetStable(s: State, s': State, org: OrgId, trigger: Trigger, current: StageId)
    requires s'.stages == s.stages && (s'.rules == s.rules || s'.rules == EnsureRules(s, org).rules)
    requires current in s.stages
    ensures ResolveTarget(s', org, trigger, current) == ResolveTarget(s, org, trigger, current)
    ensures EnsureRules(s', org).rules == EnsureRules(s, org).rules
  {
    assert ClaimStage(s', org) == ClaimStage(s, org);
    assert EnsureRules(s', org).rules == EnsureRules(s, org).rules;
    TargetFromRules(s, s', org, trigger, current);
  }

  lemma TargetFromRules(s: State, s': State, org: OrgId, trigger: Trigger, current: StageId)
    requires s'.stages == s.stages && EnsureRules(s', org).rules == EnsureRules(s, org).rules && current in s.stages
    ensures ResolveTarget(s', org, trigger, current) == ResolveTarget(s, org, trigger, current)
  {}

  ghost predicate RulesSettled(s: State, s': State, org: OrgId) {
    s'.rules == s.rules || s'.rules == EnsureRules(s, org).rules
  }

  lemma AdvanceRules(s: State, ss: Session, trigger: Trigger, id: IncidentId, current: StageId)
    requires current in s.stages && id in s.incidents && Advance(s, ss, trigger, id, current).Ok?
    ensures RulesSettled(s, Advance(s, ss, trigger, id, current).value, ss.org)
  {}

  lemma SweptOneMore(s: State, org: OrgId, trigger: Trigger, ids: seq<IncidentId>, last: nat)
    requires Distinct(ids) && |ids| == last + 1 && ids[last] in s.incidents
    ensures Swept(s, org, trigger, ids[..last])[ids[last]] == s.incidents[ids[last]]
    ensures Swept(s, org, trigger, ids)
         == Swept(s, org, trigger, ids[..last])[ids[last] := MovedBy(s, org, trigger, s.incidents[ids[last]])]
  {
    assert ids == ids[..last] + [ids[last]];
    assert ids[last] !in ids[..last];
  }

  /** One more incident of the list. */
  lemma SweepStep(s: State, s1: State, org: OrgId, trigger: Trigger, ids: seq<IncidentId>, last: nat, current: StageId)
    requires Distinct(ids) && |ids| == last + 1 && ids[last] in s.incidents
    requires s1 == s.(rules := s1.rules, incidents := Swept(s, org, trigger, ids[..last])) && RulesSettled(s, s1, org)
    requires s.incidents[ids[last]].stage == Some(current) && current in s.stages
    requires ResolveTarget(s1, org, trigger, current).Ok?
    ensures s1.incidents[ids[last] :=
        Moved(s1.incidents[ids[last]], current, ResolveTarget(s1, org, trigger, current).value)]
         == Swept(s, org, trigger, ids)
  {
    TargetStable(s, s1, org, trigger, current);
    SweptOneMore(s, org, trigger, ids, last);
  }

  /** The incidents of the list, and no others, have moved, each from its own stage. */
  ghost predicate SweptTo(s: State, s': State, org: OrgId, trigger: Trigger, ids: seq<IncidentId>) {
    s' == s.(rules := s'.rules, incidents := Swept(s, org, trigger, ids)) && RulesSettled(s, s', org)
  }

  lemma SweepNothing(s: State, org: OrgId, trigger: Trigger)
    ensures SweptTo(s, s, org, trigger, [])
  {
    assert Swept(s, org, trigger, []) == s.incidents;
  }

  lemma AdvanceSweeps(s: State, s1: State, ss: Session, trigger: Trigger, ids: seq<IncidentId>, last: nat,
      current: StageId)
    requires Valid(s1) && Distinct(ids) && |ids| == last + 1 && SweptTo(s, s1, ss.org, trigger, ids[..last])
    requires ids[last] in s.incidents && s.incidents[ids[last]].org == Some(ss.org)
    requires s.incidents[ids[last]].stage == Some(current) && current in s.stages && s.stages[current].org == ss.org
    ensures s1.incidents[ids[last]] == s.incidents[ids[last]]
    ensures Advance(s1, ss, trigger, ids[last], current).Ok?
    ensures SweptTo(s, Advance(s1, ss, trigger, ids[last], current).value, ss.org, trigger, ids)
  {
    SweptOneMore(s, ss.org, trigger, ids, last);
    AdvanceKeepsValid(s1, ss, trigger, ids[last], current);
    AdvanceRules(s1, ss, trigger, ids[last], current);
    TargetStable(s, s1, ss.org, trigger, current);
    SweepStep(s, s1, ss.org, trigger, ids, last, current);
  }

  /** Creating an event moves exactly the linked incidents, each to the target of its own stage. */
  lemma {:induction false} AdvanceAllSweeps(s: State, ss: Session, ids: seq<IncidentId>,
      found: map<IncidentId, StageId>)
    requires Valid(s) && Distinct(ids) && AllFound(s, ss.org, ids, found)
    ensures AdvanceAll(s, ss, ids, found).Ok?
    ensures SweptTo(s, AdvanceAll(s, ss, ids, found).value, ss.org, EventCreation, ids)
  {
    if ids == [] {
      SweepNothing(s, ss.org, EventCreation);
    } else {
      var last := |ids| - 1;
      FoundPrefix(s, ss.org, ids, found);
      AdvanceAllSucceeds(s, ss, ids[..last], found);
      AdvanceAllSweeps(s, ss, ids[..last], found);
      AdvanceSweeps(s, AdvanceAll(s, ss, ids[..last], found).value, ss, EventCreation, ids, last, found[ids[last]]);
    }
  }

  /** Completing an event does the same for the incidents that are on a stage. */
  lemma {:induction false} FinishAllSweeps(s: State, ss: Session, ids: seq<IncidentId>)
    requires Valid(s) && Distinct(ids)
    requires forall id :: id in ids ==> id in s.incidents && s.incidents[id].org == Some(ss.org)
    ensures FinishAll(s, ss, ids).Ok?
    ensures SweptTo(s, FinishAll(s, ss, ids).value, ss.org, EventCompletion, ids)
  {
    if ids == [] {
      SweepNothing(s, ss.org, EventCompletion);
    } else {
      var last := |ids| - 1;
      var id := ids[last];
      assert id in ids && forall id :: id in ids[..last] ==> id in ids;
      FinishAllSucceeds(s, ss, ids[..last]);
      FinishAllSweeps(s, ss, ids[..last]);
      var s1 := FinishAll(s, ss, ids[..last]).value;
      SweptOneMore(s, ss.org, EventCompletion, ids, last);
      FinishOneSweeps(s, s1, ss, ids, last);
    }
  }

  lemma FinishOneSweeps(s: State, s1: State, ss: Session, ids: seq<IncidentId>, last: nat)
    requires Valid(s) && Valid(s1) && Distinct(ids) && |ids| == last + 1
    requires SweptTo(s, s1, ss.org, EventCompletion, ids[..last])
    requires ids[last] in s.incidents && s.incidents[ids[last]].org == Some(ss.org)
    requires s1.incidents[ids[last]] == s.incidents[ids[last]]
    ensures FinishOne(s1, ss, ids[last]).Ok?
    ensures SweptTo(s, FinishOne(s1, ss, ids[last]).value, ss.org, EventCompletion, ids)
  {
    var i := s.incidents[ids[last]];
    assert IncidentOk(s.stages, i);
    if i.stage.Some? {
      AdvanceSweeps(s, s1, ss, EventCompletion, ids, last, i.stage.value);
    } else {
      SweptOneMore(s, ss.org, EventCompletion, ids, last);
      assert s1.incidents[ids[last] := i] == s1.incidents;
    }
  }

  lemma SweptStable(s: State, s': State, org: OrgId, trigger: Trigger, ids: seq<IncidentId>)
    requires s'.stages == s.stages && s'.incidents == s.incidents && RulesSettled(s, s', org)
    ensures Swept(s', org, trigger, ids) == Swept(s, org, trigger, ids)
  {
    forall i | i in s.incidents
      ensures MovedBy(s', org, trigger, s.incidents[i]) == MovedBy(s, org, trigger, s.incidents[i]) {
      var stage := s.incidents[i].stage;
      if stage.Some? && stage.value in s.stages { TargetStable(s, s', org, trigger, stage.value); }
    }
  }

  /** A successful trigger moves the incidents it is about, each from its own stage to the
      target that the rules of that moment give it, and nothing else. */
  ghost predicate Triggered(s: State, s': State, org: OrgId, trigger: Trigger, ids: seq<IncidentId>) {
    && s'.stages == s.stages && s'.incidents == Swept(s, org, trigger, ids) && RulesSettled(s, s', org)
    && forall id :: id in ids ==> id in s.incidents && s.incidents[id].org == Some(org)
  }

  lemma SweptSingle(s: State, org: OrgId, trigger: Trigger, id: IncidentId)
    requires id in s.incidents
    ensures Swept(s, org, trigger, [id]) == s.incidents[id := MovedBy(s, org, trigger, s.incidents[id])]
  {}

  lemma OneSwept(s: State, s1: State, ss: Session, trigger: Trigger, id: IncidentId, current: StageId)
    requires Valid(s1) && s1.stages == s.stages && s1.incidents == s.incidents && RulesSettled(s, s1, ss.org)
    requires id in s.incidents && s.incidents[id].org == Some(ss.org) && s.incidents[id].stage == Some(current)
    requires current in s.stages && s.stages[current].org == ss.org
    ensures Advance(s1, ss, trigger, id, current).Ok?
    ensures Triggered(s, Advance(s1, ss, trigger, id, current).value, ss.org, trigger, [id])
  {
    AdvanceKeepsValid(s1, ss, trigger, id, current);
    AdvanceRules(s1, ss, trigger, id, current);
    TargetStable(s, s1, ss.org, trigger, current);
    SweptSingle(s, ss.org, trigger, id);
  }

  lemma CreateTaskMoves(s: State, ss: Session, task: TaskId, id: IncidentId)
    requires Valid(s) && CreateTask(s, ss, task, id).Ok?
    ensures Triggered(s, CreateTask(s, ss, task, id).value, ss.org, TaskCreation, [id])
  {
    LinkableStage(s, ss, TaskCreation, id);
    EnsureRulesKeepsValid(s, ss.org);
    var s1 := EnsureRules(s, ss.org);
    PutTaskKeepsValid(s1, task, Task(ss.org, id, false));
    OneSwept(s, s1.(tasks := s1.tasks[task := Task(ss.org, id, false)]), ss, TaskCreation, id,
        s.incidents[id].stage.value);
  }

  /** The last open task of an incident moves it; an earlier one does not. */
  lemma CompleteTaskMoves(s: State, ss: Session, task: TaskId)
    requires Valid(s) && CompleteTask(s, ss, task).Ok?
    ensures task in s.tasks
    ensures var id := s.tasks[task].incident;
            Triggered(s, CompleteTask(s, ss, task).value, ss.org, TaskCompletion,
                      if OpenTasks(s, ss.org, id) == {task} then [id] else [])
  {
    var row := s.tasks[task].(done := true);
    var id, s1 := row.incident, s.(tasks := s.tasks[task := row]);
    PutTaskKeepsValid(s, task, row);
    assert OpenTasks(s1, ss.org, id) == OpenTasks(s, ss.org, id) - {task};
    assert task in OpenTasks(s, ss.org, id);
    var i := s.incidents[id];
    assert IncidentOk(s.stages, i);
    SweepNothing(s, ss.org, TaskCompletion);
    if OpenTasks(s1, ss.org, id) == {} {
      assert OpenTasks(s, ss.org, id) == {task};
      if i.stage.Some? { OneSwept(s, s1, ss, TaskCompletion, id, i.stage.value); }
      else { assert Swept(s, ss.org, TaskCompletion, [id]) == s.incidents; }
    }
  }

  lemma CreateEventMoves(s: State, ss: Session, event: EventId, ids: seq<IncidentId>)
    requires Valid(s) && CreateEvent(s, ss, event, ids).Ok?
    ensures Triggered(s, CreateEvent(s, ss, event, ids).value, ss.org, EventCreation, ids)
  {
    LinkableAllStages(s, ss, ids);
    LinkableAllRules(s, ss, ids);
    NoDuplicateIsDistinct(ids);
    var s1 := LinkableAll(s, ss, ids).value;
    var base := LinkEvent(s1, ss, event, ids);
    PutEventKeepsValid(s1, event, Event(ss.org, ids, false));
    AdvanceAllSweeps(base, ss, ids, FoundOn(s, ids));
    SweptStable(s, base, ss.org, EventCreation, ids);
  }

  lemma {:induction false} LinkableAllRules(s: State, ss: Session, ids: seq<IncidentId>)
    requires LinkableAll(s, ss, ids).Ok?
    ensures RulesSettled(s, LinkableAll(s, ss, ids).value, ss.org)
  {
    if ids != [] { LinkableAllRules(s, ss, ids[..|ids| - 1]); }
  }

  lemma FinishEventMoves(s: State, ss: Session, event: EventId)
    requires Valid(s) && FinishEvent(s, ss, event).Ok?
    ensures event in s.events
    ensures Triggered(s, FinishEvent(s, ss, event).value, ss.org, EventCompletion, s.events[event].incidents)
  {
    var e := s.events[event].(finished := true);
    var base := s.(events := s.events[event := e]);
    PutEventKeepsValid(s, event, e);
    FinishAllSweeps(base, ss, e.incidents);
    SweptStable(s, base, ss.org, EventCompletion, e.incidents);
  }

  // ----- Version and stage -----

  /** A later row of the same incident: the version never falls, and as long as it stands still
      so do organisation and stage. An incident never changes organisation. */
  predicate Later(i: Incident, i': Incident) {
    && i.version <= i'.version
    && (i.version == i'.version ==> i.org == i'.org && i.stage == i'.stage)
    && (i.org.Some? ==> i'.org == i.org)
  }

  ghost predicate AllLater(s: State, s': State) {
    forall id :: id in s.incidents ==> id in s'.incidents && Later(s.incidents[id], s'.incidents[id])
  }

  lemma TriggerIsLater(s: State, s': State, org: OrgId, trigger: Trigger, ids: seq<IncidentId>)
    requires Triggered(s, s', org, trigger, ids)
    ensures AllLater(s, s')
  {}

  predicate IsTrigger(op: Op) {
    op.OpCreateTask? || op.OpCompleteTask? || op.OpCreateEvent? || op.OpFinishEvent?
  }

  /** Which trigger a request fires and for which incidents. */
  function TriggerOf(s: State, op: Op): (Trigger, seq<IncidentId>)
    requires IsTrigger(op) && Apply(s, op).Ok?
  {
    match op
    case OpCreateTask(ss, task, id) => (TaskCreation, [id])
    case OpCompleteTask(ss, task) =>
      var id := s.tasks[task].incident;
      (TaskCompletion, if OpenTasks(s, ss.org, id) == {task} then [id] else [])
    case OpCreateEvent(ss, event, ids) => (EventCreation, ids)
    case OpFinishEvent(ss, event) => (EventCompletion, s.events[event].incidents)
  }

  lemma TriggerMoves(s: State, op: Op)
    requires Valid(s) && IsTrigger(op) && Apply(s, op).Ok?
    ensures Triggered(s, Step(s, op), op.ss.org, TriggerOf(s, op).0, TriggerOf(s, op).1)
  {
    match op
    case OpCreateTask(ss, task, id) => CreateTaskMoves(s, ss, task, id);
    case OpCompleteTask(ss, task) => CompleteTaskMoves(s, ss, task);
    case OpCreateEvent(ss, event, ids) => CreateEventMoves(s, ss, event, ids);
    case OpFinishEvent(ss, event) => FinishEventMoves(s, ss, event);
  }

  predicate WritesIncident(op: Op) {
    op.OpReport? || op.OpClaim? || op.OpReject? || op.OpMarkDuplicate? || op.OpUpdateStage?
  }

  lemma WriteIsLater(s: State, op: Op)
    requires WritesIncident(op) && Apply(s, op).Ok?
    ensures Step(s, op) == s || Step(s, op) == PutIncident(s, op.incident, Step(s, op).incidents[op.incident])
    ensures op.incident in s.incidents ==> Later(s.incidents[op.incident], Step(s, op).incidents[op.incident])
  {}

  /** What is left writes rules and stages only. */
  lemma OthersKeepIncidents(s: State, op: Op)
    requires !WritesIncident(op) && !IsTrigger(op) && !op.OpDeleteStage?
    ensures Step(s, op).incidents == s.incidents
  {}

  lemma TriggerStepIsLater(s: State, op: Op)
    requires Valid(s) && IsTrigger(op) && Apply(s, op).Ok?
    ensures AllLater(s, Step(s, op))
  {
    TriggerMoves(s, op);
    TriggerIsLater(s, Step(s, op), op.ss.org, TriggerOf(s, op).0, TriggerOf(s, op).1);
  }

  lemma PutIsLater(s: State, s': State, id: IncidentId)
    requires s' == s || (id in s'.incidents && s' == PutIncident(s, id, s'.incidents[id]))
    requires id in s.incidents && id in s'.incidents ==> Later(s.incidents[id], s'.incidents[id])
    ensures AllLater(s, s')
  {}

  lemma WriteStepIsLater(s: State, op: Op)
    requires WritesIncident(op) && Apply(s, op).Ok?
    ensures AllLater(s, Step(s, op))
  {
    WriteIsLater(s, op);
    PutIsLater(s, Step(s, op), op.incident);
  }

  lemma QuietKeepsIncidents(s: State, op: Op)
    requires Valid(s) && !WritesIncident(op) && !IsTrigger(op)
    ensures Step(s, op).incidents == s.incidents
  {
    if !op.OpDeleteStage? { OthersKeepIncidents(s, op); }
    else if Apply(s, op).Ok? { DeleteStageKeepsValid(s, op.ss, op.stage); }
  }

  lemma StepIsLater(s: State, op: Op)
    requires Valid(s)
    ensures AllLater(s, Step(s, op))
  {
    if !WritesIncident(op) && !IsTrigger(op) { QuietKeepsIncidents(s, op); }
    else if Apply(s, op).Err? { assert Step(s, op) == s; }
    else if IsTrigger(op) { TriggerStepIsLater(s, op); }
    else { WriteStepIsLater(s, op); }
  }

  lemma {:induction false} RunIsLater(s: State, ops: seq<Op>)
    requires Valid(s)
    ensures AllLater(s, Run(s, ops))
    decreases |ops|
  {
    if ops != [] {
      StepIsLater(s, ops[0]);
      StepKeepsValid(s, ops[0]);
      RunIsLater(Step(s, ops[0]), ops[1..]);
    }
  }

  /** Version determines stage: two states of one run in which an incident has the same version
      have it in the same organisation and on the same stage, although marking a duplicate
      writes without a new version. */
  lemma VersionDeterminesStage(s: State, ops: seq<Op>, more: seq<Op>, id: IncidentId)
    requires Valid(s) && id in Run(s, ops).incidents
    ensures var s1 := Run(s, ops);
            var s2 := Run(s1, more);
            && id in s2.incidents
            && (s1.incidents[id].version == s2.incidents[id].version ==>
                  s1.incidents[id].org == s2.incidents[id].org && s1.incidents[id].stage == s2.incidents[id].stage)
  {
    RunKeepsValid(s, ops);
    RunIsLater(Run(s, ops), more);
  }

  /** Optimistic locking: a client that read the incident and sends the version it read never
      overwrites a stage it has not seen. Its request changes nothing, or replaces exactly the
      stage it read. */
  lemma OptimisticMoveReplacesWhatWasRead(s: State, ops: seq<Op>, ss: Session, id: IncidentId, stage: StageId)
    requires Valid(s) && id in s.incidents
    requires UpdateStage(Run(s, ops), ss, id, stage, Some(s.incidents[id].version)).Ok?
    ensures var now := Run(s, ops);
            var after := UpdateStage(now, ss, id, stage, Some(s.incidents[id].version)).value;
            && id in now.incidents && id in after.incidents && after.incidents[id].stage == Some(stage)
            && (after == now || (now.incidents[id].stage == s.incidents[id].stage
                  && now.incidents[id].org == s.incidents[id].org))
  {
    RunIsLater(s, ops);
  }

  // ----- Claiming and triage -----

  lemma ClaimStageLands(s: State, org: OrgId)
    requires S.InRange(s.stages, org)
    ensures var stage, n := ClaimStage(s, org), |S.OfOrg(s.stages, org)|;
            && (stage.None? <==> n == 0)
            && (n > 0 ==> (stage.value in S.OfOrg(s.stages, org)
                           && s.stages[stage.value].position == (if n == 1 then 0 else 1)))
  {
    var listing := S.ListStages(s.stages, org);
    assert forall k :: 0 <= k < |listing| ==> listing[k] in S.OfOrg(s.stages, org);
    if |listing| > 1 { S.ListingIndex(s.stages, org, listing, 1); }
    else if |listing| == 1 { S.ListingIndex(s.stages, org, listing, 0); }
  }

  /** A claim succeeds exactly on a visible pooled incident inside the area, and lands on the
      stage at position 1, or at 0 if that is the only one. */
  lemma ClaimOutcome(s: State, ss: Session, id: IncidentId, inArea: bool)
    requires S.InRange(s.stages, ss.org)
    ensures Claim(s, ss, id, inArea).Ok? <==>
              id in s.incidents && Visible(ss, s.incidents[id]) && s.incidents[id].org.None? && inArea
    ensures Claim(s, ss, id, inArea).Ok? ==>
              var i, n := Claim(s, ss, id, inArea).value.incidents[id], |S.OfOrg(s.stages, ss.org)|;
              && i.org == Some(ss.org) && i.verification == Some(Approved) && i.version == s.incidents[id].version + 1
              && (i.stage.None? <==> n == 0)
              && (n > 0 ==> i.stage.value in S.OfOrg(s.stages, ss.org)
                            && s.stages[i.stage.value].position == (if n == 1 then 0 else 1))
  {
    ClaimStageLands(s, ss.org);
  }

  /** A rejection succeeds exactly on an approved incident of the organisation, whether or not
      there still is a Dismissed stage; if there is, that is where the incident goes. */
  lemma RejectOutcome(s: State, ss: Session, id: IncidentId, dismissed: StageId)
    requires Valid(s)
    ensures Reject(s, ss, id).Ok? <==>
              id in s.incidents && s.incidents[id].org == Some(ss.org) && s.incidents[id].verification == Some(Approved)
    ensures Reject(s, ss, id).Ok? ==>
              var was, now := s.incidents[id], Reject(s, ss, id).value.incidents[id];
              && now.verification == Some(Rejected) && now.org == was.org && now.version == was.version + 1
              && (dismissed in S.OfOrg(s.stages, ss.org) && s.stages[dismissed].slug == "dismissed" ==>
                    now.stage == Some(dismissed))
              && (now.stage == was.stage
                  || (now.stage.Some? && now.stage.value in s.stages && s.stages[now.stage.value].slug == "dismissed"))
  {
    if dismissed in S.OfOrg(s.stages, ss.org) && s.stages[dismissed].slug == "dismissed" {
      assert S.SlugsUnique(s.stages) && DismissedStage(s, ss.org) == Some(dismissed);
    }
  }

  /** Rejected or marked as a duplicate. */
  predicate Triaged(i: Incident) {
    i.verification == Some(Rejected) || i.verification == Some(Duplicate)
  }

  lemma TriggerKeepsVerdicts(s: State, s': State, org: OrgId, trigger: Trigger, ids: seq<IncidentId>, id: IncidentId)
    requires Triggered(s, s', org, trigger, ids) && id in s.incidents
    ensures id in s'.incidents && s'.incidents[id].verification == s.incidents[id].verification
  {}

  lemma WriteKeepsTriaged(s: State, op: Op)
    requires WritesIncident(op) && Apply(s, op).Ok? && op.incident in s.incidents
    requires IncidentOk(s.stages, s.incidents[op.incident]) && Triaged(s.incidents[op.incident])
    ensures op.incident in Step(s, op).incidents
    ensures Step(s, op).incidents[op.incident].verification == s.incidents[op.incident].verification
  {}

  lemma TriggerStepKeepsVerdicts(s: State, op: Op, id: IncidentId)
    requires Valid(s) && IsTrigger(op) && Apply(s, op).Ok? && id in s.incidents
    ensures id in Step(s, op).incidents && Step(s, op).incidents[id].verification == s.incidents[id].verification
  {
    TriggerMoves(s, op);
    TriggerKeepsVerdicts(s, Step(s, op), op.ss.org, TriggerOf(s, op).0, TriggerOf(s, op).1, id);
  }

  lemma WriteStepKeepsTriaged(s: State, op: Op, id: IncidentId)
    requires WritesIncident(op) && Apply(s, op).Ok? && id in s.incidents
    requires IncidentOk(s.stages, s.incidents[id]) && Triaged(s.incidents[id])
    ensures id in Step(s, op).incidents && Step(s, op).incidents[id].verification == s.incidents[id].verification
  {
    WriteIsLater(s, op);
    if op.incident == id { WriteKeepsTriaged(s, op); }
  }

  lemma StepKeepsTriaged(s: State, op: Op, id: IncidentId)
    requires Valid(s) && id in s.incidents && Triaged(s.incidents[id])
    ensures id in Step(s, op).incidents && Step(s, op).incidents[id].verification == s.incidents[id].verification
  {
    if !WritesIncident(op) && !IsTrigger(op) { QuietKeepsIncidents(s, op); }
    else if Apply(s, op).Err? { assert Step(s, op) == s; }
    else if IsTrigger(op) { TriggerStepKeepsVerdicts(s, op, id); }
    else {
      assert IncidentOk(s.stages, s.incidents[id]);
      WriteStepKeepsTriaged(s, op, id);
    }
  }

  lemma {:induction false} RunKeepsTriaged(s: State, ops: seq<Op>, id: IncidentId)
    requires Valid(s) && id in s.incidents && Triaged(s.incidents[id])
    ensures id in Run(s, ops).incidents && Run(s, ops).incidents[id].verification == s.incidents[id].verification
    decreases |ops|
  {
    if ops != [] {
      StepKeepsTriaged(s, ops[0], id);
      StepKeepsValid(s, ops[0]);
      RunKeepsTriaged(Step(s, ops[0]), ops[1..], id);
    }
  }

  /** Triage is terminal: over any run the verdict and the organisation stay, nobody can claim
      the incident again, and no task or event can be created from it, whatever stage it is
      moved to. */
  lemma TriageIsTerminal(s: State, ops: seq<Op>, id: IncidentId, ss: Session)
    requires Valid(s) && id in s.incidents && Triaged(s.incidents[id])
    ensures var s' := Run(s, ops);
            && id in s'.incidents && s'.incidents[id].verification == s.incidents[id].verification
            && s'.incidents[id].org == s.incidents[id].org
            && (forall inArea :: Claim(s', ss, id, inArea).Err?)
            && (forall trigger :: Linkable(s', ss, trigger, id).Err?)
  {
    assert IncidentOk(s.stages, s.incidents[id]);
    RunKeepsTriaged(s, ops, id);
    RunIsLater(s, ops);
  }

  // ----- One task at a time -----

  /** Right after a task was created on an incident, the next creation is let through exactly
      when the first one did not move the incident, or no stage is required and it moved to a
      stage that is not final. */
  lemma SecondTaskAtOnceIff(s: State, ss: Session, task: TaskId, id: IncidentId, second: TaskId)
    requires Valid(s) && CreateTask(s, ss, task, id).Ok? && second !in s.tasks && second != task
    ensures var s1, current := CreateTask(s, ss, task, id).value, s.incidents[id].stage.value;
            && current in s.stages && ResolveTarget(s, ss.org, TaskCreation, current).Ok?
            && var target := ResolveTarget(s, ss.org, TaskCreation, current).value;
               CreateTask(s1, ss, second, id).Ok? <==>
                 (target.None? || target.value == current
                  || (MinOf(EnsureRules(s, ss.org).rules[ss.org], TaskCreation).None?
                      && target.value in s.stages && !s.stages[target.value].isFinal))
  {
    var s1, current := CreateTask(s, ss, task, id).value, s.incidents[id].stage.value;
    LinkableStage(s, ss, TaskCreation, id);
    CreateTaskSucceeds(s, ss, task, id);
    CreateTaskMoves(s, ss, task, id);
    TargetIsOwn(s, ss.org, TaskCreation, current);
    CreateTaskSucceeds(s1, ss, second, id);
    var target := ResolveTarget(s, ss.org, TaskCreation, current).value;
    assert s1.incidents[id] == Moved(s.incidents[id], current, target);
    CreateTaskLeaves(s, ss, task, id);
    RequiredAgain(s, s1, ss, id);
  }

  lemma CreateTaskLeaves(s: State, ss: Session, task: TaskId, id: IncidentId)
    requires Valid(s) && CreateTask(s, ss, task, id).Ok?
    ensures CreateTask(s, ss, task, id).value.tasks == s.tasks[task := Task(ss.org, id, false)]
    ensures CreateTask(s, ss, task, id).value.rules == EnsureRules(s, ss.org).rules
  {
    LinkableStage(s, ss, TaskCreation, id);
    EnsureRulesKeepsValid(s, ss.org);
    var s1 := EnsureRules(s, ss.org);
    PutTaskKeepsValid(s1, task, Task(ss.org, id, false));
    AdvanceKeepsValid(s1.(tasks := s1.tasks[task := Task(ss.org, id, false)]), ss, TaskCreation, id,
        s.incidents[id].stage.value);
  }

  lemma RequiredAgain(s: State, s1: State, ss: Session, id: IncidentId)
    requires Valid(s1) && s1.stages == s.stages && s1.rules == EnsureRules(s, ss.org).rules
    requires id in s1.incidents && s1.incidents[id].org == Some(ss.org)
        && s1.incidents[id].verification == Some(Approved)
    requires s1.incidents[id].stage.Some?
    ensures var min, stage := MinOf(EnsureRules(s, ss.org).rules[ss.org], TaskCreation), s1.incidents[id].stage.value;
            && stage in s.stages
            && (Linkable(s1, ss, TaskCreation, id).Ok? <==>
                  !s.stages[stage].isFinal && (min.None? || min.value == stage))
  {
    assert IncidentOk(s1.stages, s1.incidents[id]);
    GateMirrorsList(s1, ss.org, TaskCreation, s1.incidents[id].stage.value);
  }

  /** At this step of the run the incident comes to stand on the stage. */
  ghost predicate ReturnsAt(s: State, ops: seq<Op>, id: IncidentId, stage: StageId, k: nat) {
    k < |ops|
    && var before := Run(s, ops[..k]);
       var after := Run(s, ops[..k + 1]);
       && id in before.incidents && id in after.incidents
       && before.incidents[id].stage != Some(stage) && after.incidents[id].stage == Some(stage)
  }

  lemma {:induction false} RunAppend(s: State, ops: seq<Op>, op: Op)
    ensures Run(s, ops + [op]) == Step(Run(s, ops), op)
    decreases |ops|
  {
    if ops == [] {
      assert ([] + [op])[1..] == [];
    } else {
      assert (ops + [op])[1..] == ops[1..] + [op];
      RunAppend(Step(s, ops[0]), ops[1..], op);
    }
  }

  lemma {:induction false} MustReturn(s: State, ops: seq<Op>, id: IncidentId, stage: StageId)
    requires Valid(s) && id in s.incidents && s.incidents[id].stage != Some(stage)
    requires id in Run(s, ops).incidents && Run(s, ops).incidents[id].stage == Some(stage)
    ensures exists k: nat :: ReturnsAt(s, ops, id, stage, k)
    decreases |ops|
  {
    if ops != [] {
      var last := |ops| - 1;
      var prior := ops[..last];
      RunIsLater(s, prior);
      if Run(s, prior).incidents[id].stage != Some(stage) {
        assert ops[..last + 1] == ops;
        assert ReturnsAt(s, ops, id, stage, last);
      } else {
        MustReturn(s, prior, id, stage);
        var k: nat :| ReturnsAt(s, prior, id, stage, k);
        assert prior[..k] == ops[..k] && prior[..k + 1] == ops[..k + 1];
        assert ReturnsAt(s, ops, id, stage, k);
      }
    }
  }

  lemma CreatedOnRequired(s: State, ss: Session, task: TaskId, id: IncidentId, required: StageId)
    requires CreateTask(s, ss, task, id).Ok?
    requires MinOf(EnsureRules(s, ss.org).rules[ss.org], TaskCreation) == Some(required)
    ensures id in s.incidents && s.incidents[id].stage == Some(required)
  {
    assert Linkable(s, ss, TaskCreation, id).Ok?;
    assert RequireStage(s, ss.org, TaskCreation, s.incidents[id].stage.value).Ok?;
  }

  lemma CreatedAndGone(s: State, ss: Session, task: TaskId, id: IncidentId, required: StageId)
    requires Valid(s) && CreateTask(s, ss, task, id).Ok? && required in s.stages
    requires id in s.incidents && s.incidents[id].stage == Some(required)
    requires ResolveTarget(s, ss.org, TaskCreation, required).Ok?
    requires var target := ResolveTarget(s, ss.org, TaskCreation, required).value;
             target.Some? && target.value != required
    ensures var s1 := CreateTask(s, ss, task, id).value; id in s1.incidents && s1.incidents[id].stage != Some(required)
  {
    CreateTaskMoves(s, ss, task, id);
    assert id in [id];
  }

  /** With a required stage whose target is another stage, two creations on one incident always
      have a request between them that moves it back to the required stage. */
  lemma SecondTaskNeedsReturn(s: State, ss: Session, task: TaskId, id: IncidentId, ops: seq<Op>,
                              ss2: Session, second: TaskId, required: StageId)
    requires Valid(s) && CreateTask(s, ss, task, id).Ok?
    requires MinOf(EnsureRules(s, ss.org).rules[ss.org], TaskCreation) == Some(required) && required in s.stages
    requires ResolveTarget(s, ss.org, TaskCreation, required).Ok?
    requires var target := ResolveTarget(s, ss.org, TaskCreation, required).value;
             target.Some? && target.value != required
    requires var s2 := Run(CreateTask(s, ss, task, id).value, ops);
             && CreateTask(s2, ss2, second, id).Ok?
             && MinOf(EnsureRules(s2, ss2.org).rules[ss2.org], TaskCreation) == Some(required)
    ensures exists k: nat :: ReturnsAt(CreateTask(s, ss, task, id).value, ops, id, required, k)
  {
    CreatedOnRequired(s, ss, task, id, required);
    CreateTaskSucceeds(s, ss, task, id);
    CreatedAndGone(s, ss, task, id, required);
    var s1 := CreateTask(s, ss, task, id).value;
    CreatedOnRequired(Run(s1, ops), ss2, second, id, required);
    MustReturn(s1, ops, id, required);
  }

  // ----- Automatic advance over whole runs -----

  /** No organisation has configured a target. */
  ghost predicate Automatic(s: State) {
    forall o :: o in s.rules ==> forall trigger :: TargetOf(s.rules[o], trigger).None?
  }

  /** Requests other than manual moves, dismissals and edits of stages or rules. */
  predicate HandsOff(op: Op) {
    op.OpReport? || op.OpClaim? || op.OpMarkDuplicate? || op.OpCreateTask? || op.OpCompleteTask?
    || op.OpCreateEvent? || op.OpFinishEvent? || op.OpReadRules?
  }

  /** The incident climbed one position per new version, and not from a final stage. */
  ghost predicate Climbs(t: S.Table, i: Incident, i': Incident) {
    i.stage.Some? && i.stage.value in t ==>
      && i'.stage.Some? && i'.stage.value in t && t[i'.stage.value].org == t[i.stage.value].org
      && t[i'.stage.value].position - t[i.stage.value].position == i'.version - i.version
      && i.version <= i'.version
      && (t[i.stage.value].isFinal ==> i'.stage == i.stage)
  }

  ghost predicate AllClimb(s: State, s': State) {
    && s'.stages == s.stages
    && forall id :: id in s.incidents ==> id in s'.incidents && Climbs(s.stages, s.incidents[id], s'.incidents[id])
  }

  lemma AutomaticMove(s: State, org: OrgId, trigger: Trigger, i: Incident)
    requires Automatic(s)
    ensures Climbs(s.stages, i, MovedBy(s, org, trigger, i))
  {
    assert TargetOf(EnsureRules(s, org).rules[org], trigger).None?;
  }

  lemma TriggerClimbs(s: State, s': State, org: OrgId, trigger: Trigger, ids: seq<IncidentId>)
    requires Automatic(s) && Triggered(s, s', org, trigger, ids)
    ensures AllClimb(s, s') && Automatic(s')
  {
    forall id | id in s.incidents ensures Climbs(s.stages, s.incidents[id], s'.incidents[id]) {
      AutomaticMove(s, org, trigger, s.incidents[id]);
    }
    EnsuredAutomatic(s, org);
  }

  lemma EnsuredAutomatic(s: State, org: OrgId)
    requires Automatic(s)
    ensures Automatic(EnsureRules(s, org))
  {}

  lemma WriteClimbs(s: State, op: Op)
    requires Valid(s) && (op.OpReport? || op.OpClaim? || op.OpMarkDuplicate?) && Apply(s, op).Ok?
    ensures Step(s, op) == PutIncident(s, op.incident, Step(s, op).incidents[op.incident])
    ensures op.incident in s.incidents ==>
        Climbs(s.stages, s.incidents[op.incident], Step(s, op).incidents[op.incident])
  {
    if op.incident in s.incidents { assert IncidentOk(s.stages, s.incidents[op.incident]); }
  }

  lemma StepClimbs(s: State, op: Op)
    requires Valid(s) && Automatic(s) && HandsOff(op)
    ensures AllClimb(s, Step(s, op)) && Automatic(Step(s, op))
  {
    if Apply(s, op).Err? {
      assert Step(s, op) == s;
    } else if IsTrigger(op) {
      TriggerMoves(s, op);
      TriggerClimbs(s, Step(s, op), op.ss.org, TriggerOf(s, op).0, TriggerOf(s, op).1);
    } else if op.OpReadRules? {
      EnsuredAutomatic(s, op.ss.org);
    } else {
      WriteClimbs(s, op);
    }
  }

  lemma {:induction false} RunClimbs(s: State, ops: seq<Op>)
    requires Valid(s) && Automatic(s) && forall op :: op in ops ==> HandsOff(op)
    ensures AllClimb(s, Run(s, ops))
    decreases |ops|
  {
    if ops != [] {
      assert ops[0] in ops && forall op :: op in ops[1..] ==> op in ops;
      StepClimbs(s, ops[0]);
      StepKeepsValid(s, ops[0]);
      RunClimbs(Step(s, ops[0]), ops[1..]);
    }
  }

  /** With every target automatic and no manual interference, over any run of any length an
      incident climbs exactly one position per move, never leaves a final stage, and moves at
      most n-1 times in an organisation of n stages. */
  lemma AutomaticRunsStop(s: State, ops: seq<Op>, id: IncidentId)
    requires Valid(s) && Automatic(s) && forall op :: op in ops ==> HandsOff(op)
    requires id in s.incidents && s.incidents[id].stage.Some?
    ensures var s' := Run(s, ops);
            && s.incidents[id].stage.value in s.stages && id in s'.incidents
            && Climbs(s.stages, s.incidents[id], s'.incidents[id])
            && s'.incidents[id].version - s.incidents[id].version
               <= |S.OfOrg(s.stages, s.stages[s.incidents[id].stage.value].org)| - 1
  {
    RunClimbs(s, ops);
    assert IncidentOk(s.stages, s.incidents[id]);
    var last := Run(s, ops).incidents[id].stage.value;
    var org := s.stages[s.incidents[id].stage.value].org;
    assert S.InRange(s.stages, org);
    assert last in S.OfOrg(s.stages, org);
  }

  // ----- The services, statement by statement -----

  lemma {:induction false} LinkableAllStopsAt(s: State, ss: Session, ids: seq<IncidentId>, k: nat)
    requires k <= |ids| && LinkableAll(s, ss, ids[..k]).Err?
    ensures LinkableAll(s, ss, ids) == LinkableAll(s, ss, ids[..k])
  {
    if k < |ids| {
      assert ids[..|ids| - 1][..k] == ids[..k];
      LinkableAllStopsAt(s, ss, ids[..|ids| - 1], k);
    } else {
      assert ids[..k] == ids;
    }
  }

  lemma FoundOnStep(s: State, ids: seq<IncidentId>, k: nat)
    requires k < |ids| && forall id :: id in ids[..k + 1] ==> id in s.incidents && s.incidents[id].stage.Some?
    ensures forall id :: id in ids[..k] ==> id in ids[..k + 1]
    ensures ids[k] in s.incidents && s.incidents[ids[k]].stage.Some?
    ensures FoundOn(s, ids[..k + 1]) == FoundOn(s, ids[..k])[ids[k] := s.incidents[ids[k]].stage.value]
  {
    assert ids[..k + 1] == ids[..k] + [ids[k]];
  }

  lemma LinkableAllStep(s: State, ss: Session, ids: seq<IncidentId>, k: nat)
    requires k < |ids| && LinkableAll(s, ss, ids[..k]).Ok?
    ensures LinkableAll(s, ss, ids[..k + 1]) == Linkable(LinkableAll(s, ss, ids[..k]).value, ss, EventCreation, ids[k])
    ensures LinkableAll(s, ss, ids[..k + 1]).Ok? ==>
              FoundOn(s, ids[..k + 1]) == FoundOn(s, ids[..k])[ids[k] := s.incidents[ids[k]].stage.value]
  {
    assert ids[..k + 1][..k] == ids[..k];
    if LinkableAll(s, ss, ids[..k + 1]).Ok? { FoundOnStep(s, ids, k); }
  }

  lemma {:induction false} AdvanceAllStopsAt(s: State, ss: Session, ids: seq<IncidentId>,
      found: map<IncidentId, StageId>, k: nat)
    requires forall id :: id in ids ==> id in s.incidents && id in found && found[id] in s.stages
    requires k <= |ids| && AdvanceAll(s, ss, ids[..k], found).Err?
    ensures AdvanceAll(s, ss, ids, found) == AdvanceAll(s, ss, ids[..k], found)
  {
    if k < |ids| {
      assert ids[..|ids| - 1][..k] == ids[..k];
      AdvanceAllStopsAt(s, ss, ids[..|ids| - 1], found, k);
    } else {
      assert ids[..k] == ids;
    }
  }

  lemma {:induction false} FinishAllStopsAt(s: State, ss: Session, ids: seq<IncidentId>, k: nat)
    requires k <= |ids| && FinishAll(s, ss, ids[..k]).Err?
    ensures FinishAll(s, ss, ids) == FinishAll(s, ss, ids[..k])
  {
    if k < |ids| {
      assert ids[..|ids| - 1][..k] == ids[..k];
      FinishAllStopsAt(s, ss, ids[..|ids| - 1], k);
    } else {
      assert ids[..k] == ids;
    }
  }

  class WorkflowTables {
    var stages: StageTable
    var rules: map<OrgId, Rules>
    var incidents: map<IncidentId, Incident>
    var tasks: map<TaskId, Task>
    var events: map<EventId, Event>

    constructor (s: State)
      ensures Now() == s
    {
      stages, rules, incidents, tasks, events := s.stages, s.rules, s.incidents, s.tasks, s.events;
    }

    function Now(): State
      reads this
    {
      State(stages, rules, incidents, tasks, events)
    }

    /** ROLLBACK. */
    method Restore(s: State)
      modifies this
      ensures Now() == s
    {
      stages, rules, incidents, tasks, events := s.stages, s.rules, s.incidents, s.tasks, s.events;
    }

    /** UPDATE incidents, of a row the session sees. */
    method Write(ss: Session, id: IncidentId, i: Incident) returns (error: Option<Error>)
      modifies this
      ensures error == ErrorOf(WriteIncident(old(Now()), ss, id, i))
      ensures Now() == Settle(old(Now()), WriteIncident(old(Now()), ss, id, i))
    {
      if !WithCheck(ss, i) { return Some(RowSecurityViolation); }
      incidents := incidents[id := i];
      return None;
    }

    method Claim(ss: Session, id: IncidentId, inArea: bool) returns (error: Option<Error>)
      modifies this
      ensures error == ErrorOf(Apply(old(Now()), OpClaim(ss, id, inArea)))
      ensures Now() == Step(old(Now()), OpClaim(ss, id, inArea))
    {
      if id !in incidents || !Visible(ss, incidents[id]) { return Some(NotFound); }
      var i := incidents[id];
      if i.org.Some? { return Some(AlreadyClaimed); }
      if !inArea { return Some(OutsideServiceArea); }
      var stage := ClaimStage(Now(), ss.org);
      error := Write(ss, id, i.(org := Some(ss.org), verification := Some(Approved), stage := stage,
                                version := i.version + 1));
    }

    method Reject(ss: Session, id: IncidentId) returns (error: Option<Error>)
      modifies this
      ensures error == ErrorOf(Apply(old(Now()), OpReject(ss, id)))
      ensures Now() == Step(old(Now()), OpReject(ss, id))
    {
      var found := OwnIncident(Now(), ss, id);
      if found.Err? { return Some(found.error); }
      var i := found.value;
      if i.verification != Some(Approved) { return Some(NotActive); }
      var dismissed := DismissedStage(Now(), ss.org);
      var stage := i.stage;
      if dismissed.Some? { stage := dismissed; }
      error := Write(ss, id, i.(verification := Some(Rejected), version := i.version + 1, stage := stage));
    }

    method MarkDuplicate(ss: Session, id: IncidentId, other: IncidentId) returns (error: Option<Error>)
      modifies this
      ensures error == ErrorOf(Apply(old(Now()), OpMarkDuplicate(ss, id, other)))
      ensures Now() == Step(old(Now()), OpMarkDuplicate(ss, id, other))
    {
      var found := OwnIncident(Now(), ss, id);
      if found.Err? { return Some(found.error); }
      if found.value.verification != Some(Approved) { return Some(NotActive); }
      if OwnIncident(Now(), ss, other).Err? { return Some(NotFound); }
      error := Write(ss, id, found.value.(verification := Some(Duplicate), duplicateOf := Some(other)));
    }

    method UpdateStage(ss: Session, id: IncidentId, stage: StageId, expected: Option<nat>)
      returns (error: Option<Error>)
      modifies this
      ensures error == ErrorOf(Apply(old(Now()), OpUpdateStage(ss, id, stage, expected)))
      ensures Now() == Step(old(Now()), OpUpdateStage(ss, id, stage, expected))
    {
      if id !in incidents || !Visible(ss, incidents[id]) { return Some(NotFound); }
      var i := incidents[id];
      if i.org.None? { return Some(NotClaimed); }
      if stage !in S.OfOrg(stages, ss.org) { return Some(InvalidStage); }
      if i.stage == Some(stage) { return None; }
      if expected.Some? && i.version != expected.value { return Some(ModifiedConcurrently); }
      error := Write(ss, id, i.(stage := Some(stage), version := i.version + 1));
    }

    method GetRules(org: OrgId) returns (r: Rules)
      modifies this
      ensures Now() == EnsureRules(old(Now()), org) && r == EnsureRules(old(Now()), org).rules[org]
    {
      if org !in rules {
        var stage := ClaimStage(Now(), org);
        rules := rules[org := Rules(stage, None, stage, None, None, None)];
      }
      return rules[org];
    }

    /** The shared precondition for one incident. A refusal may leave a fresh rules row behind,
        which the caller's ROLLBACK takes away. */
    method CheckLinkable(ss: Session, trigger: Trigger, id: IncidentId) returns (r: Result<StageId, Error>)
      modifies this
      ensures r.Ok? ==> && Linkable(old(Now()), ss, trigger, id) == Ok(Now())
                        && r.value == old(Now()).incidents[id].stage.value
      ensures r.Err? ==> Linkable(old(Now()), ss, trigger, id) == Err(r.error)
    {
      var found := OwnIncident(Now(), ss, id);
      if found.Err? { return Err(found.error); }
      var i := found.value;
      if i.verification != Some(Approved) || i.stage.None? { return Err(NotActive); }
      var current := i.stage.value;
      if FindStage(Now(), ss.org, current).Err? { return Err(StageNotFound); }
      if stages[current].isFinal { return Err(FinalStage); }
      var row := GetRules(ss.org);
      var min := MinOf(row, trigger);
      if min.Some? {
        if FindStage(Now(), ss.org, min.value).Err? { return Err(StageNotFound); }
        if current != min.value { return Err(WrongStage); }
      }
      return Ok(current);
    }

    /** `resolveTarget` and `advanceStage`. */
    method AdvanceIncident(ss: Session, trigger: Trigger, id: IncidentId, current: StageId)
      returns (error: Option<Error>)
      requires current in stages && id in incidents
      modifies this
      ensures error == ErrorOf(Advance(old(Now()), ss, trigger, id, current))
      ensures error.None? ==> Advance(old(Now()), ss, trigger, id, current) == Ok(Now())
    {
      if stages[current].isFinal { return None; }
      var row := GetRules(ss.org);
      var target := TargetOf(row, trigger);
      if target.Some? {
        if FindStage(Now(), ss.org, target.value).Err? { return Some(StageNotFound); }
      } else {
        target := S.FindNext(stages, current);
      }
      if target.None? || target.value == current || !Visible(ss, incidents[id]) { return None; }
      error := Write(ss, id, incidents[id].(stage := target, version := incidents[id].version + 1));
    }

    method CreateTask(ss: Session, task: TaskId, id: IncidentId) returns (error: Option<Error>)
      modifies this
      ensures error == ErrorOf(Apply(old(Now()), OpCreateTask(ss, task, id)))
      ensures Now() == Step(old(Now()), OpCreateTask(ss, task, id))
    {
      var before := Now();
      var current := CheckLinkable(ss, TaskCreation, id);
      if current.Err? {
        Restore(before);
        return Some(current.error);
      }
      if task in tasks {
        Restore(before);
        return Some(KeyTaken);
      }
      tasks := tasks[task := Task(ss.org, id, false)];
      error := AdvanceIncident(ss, TaskCreation, id, current.value);
      if error.Some? { Restore(before); }
    }

    method CompleteTask(ss: Session, task: TaskId) returns (error: Option<Error>)
      modifies this
      ensures error == ErrorOf(Apply(old(Now()), OpCompleteTask(ss, task)))
      ensures Now() == Step(old(Now()), OpCompleteTask(ss, task))
    {
      var before := Now();
      if task !in tasks || tasks[task].org != ss.org { return Some(NotFound); }
      if tasks[task].done { return Some(AlreadyDone); }
      var id := tasks[task].incident;
      tasks := tasks[task := tasks[task].(done := true)];
      if OpenTasks(Now(), ss.org, id) != {} { return None; }
      var found := FindIncident(Now(), ss, id);
      if found.Err? {
        Restore(before);
        return Some(found.error);
      }
      var i := found.value;
      if i.org.None? || i.stage.None? { return None; }
      if FindStage(Now(), ss.org, i.stage.value).Err? {
        Restore(before);
        return Some(StageNotFound);
      }
      error := AdvanceIncident(ss, TaskCompletion, id, i.stage.value);
      if error.Some? { Restore(before); }
    }

    /** The first loop of event creation: check every incident and remember its stage. */
    method CheckAll(ss: Session, ids: seq<IncidentId>) returns (r: Result<map<IncidentId, StageId>, Error>)
      modifies this
      ensures r.Ok? ==> && LinkableAll(old(Now()), ss, ids) == Ok(Now())
                        && r.value == FoundOn(old(Now()), ids)
      ensures r.Err? ==> LinkableAll(old(Now()), ss, ids) == Err(r.error)
    {
      var found: map<IncidentId, StageId> := map[];
      for k := 0 to |ids|
        invariant LinkableAll(old(Now()), ss, ids[..k]) == Ok(Now())
        invariant found == FoundOn(old(Now()), ids[..k])
      {
        LinkableAllStep(old(Now()), ss, ids, k);
        var current := CheckLinkable(ss, EventCreation, ids[k]);
        if current.Err? {
          LinkableAllStopsAt(old(Now()), ss, ids, k + 1);
          return Err(current.error);
        }
        found := found[ids[k] := current.value];
      }
      assert ids[..|ids|] == ids;
      return Ok(found);
    }

    /** The second loop: advance every incident from the stage it was found on. */
    method MoveAll(ss: Session, ids: seq<IncidentId>, found: map<IncidentId, StageId>) returns (error: Option<Error>)
      requires forall id :: id in ids ==> id in incidents && id in found && found[id] in stages
      modifies this
      ensures error == ErrorOf(AdvanceAll(old(Now()), ss, ids, found))
      ensures error.None? ==> AdvanceAll(old(Now()), ss, ids, found) == Ok(Now())
    {
      for k := 0 to |ids|
        invariant AdvanceAll(old(Now()), ss, ids[..k], found) == Ok(Now())
      {
        assert ids[k] in ids && ids[..k + 1][..k] == ids[..k];
        error := AdvanceIncident(ss, EventCreation, ids[k], found[ids[k]]);
        if error.Some? {
          AdvanceAllStopsAt(old(Now()), ss, ids, found, k + 1);
          return;
        }
      }
      assert ids[..|ids|] == ids;
      return None;
    }

    method CreateEvent(ss: Session, event: EventId, ids: seq<IncidentId>) returns (error: Option<Error>)
      modifies this
      ensures error == ErrorOf(Apply(old(Now()), OpCreateEvent(ss, event, ids)))
      ensures Now() == Step(old(Now()), OpCreateEvent(ss, event, ids))
    {
      var before := Now();
      if ids == [] { return Some(NothingLinked); }
      var found := CheckAll(ss, ids);
      if found.Err? {
        Restore(before);
        return Some(found.error);
      }
      if event in events || HasDuplicate(ids) {
        Restore(before);
        return Some(KeyTaken);
      }
      events := events[event := Event(ss.org, ids, false)];
      assert Now() == LinkEvent(LinkableAll(before, ss, ids).value, ss, event, ids);
      error := MoveAll(ss, ids, found.value);
      if error.Some? { Restore(before); }
    }

    method FinishIncident(ss: Session, id: IncidentId) returns (error: Option<Error>)
      modifies this
      ensures error == ErrorOf(FinishOne(old(Now()), ss, id))
      ensures error.None? ==> FinishOne(old(Now()), ss, id) == Ok(Now())
    {
      var found := OwnIncident(Now(), ss, id);
      if found.Err? { return Some(found.error); }
      if found.value.stage.None? { return None; }
      var current := found.value.stage.value;
      if FindStage(Now(), ss.org, current).Err? { return Some(StageNotFound); }
      error := AdvanceIncident(ss, EventCompletion, id, current);
    }

    /** The loop over the linked incidents. */
    method FinishLinks(ss: Session, links: seq<IncidentId>) returns (error: Option<Error>)
      modifies this
      ensures error == ErrorOf(FinishAll(old(Now()), ss, links))
      ensures error.None? ==> FinishAll(old(Now()), ss, links) == Ok(Now())
    {
      for k := 0 to |links|
        invariant FinishAll(old(Now()), ss, links[..k]) == Ok(Now())
      {
        assert links[..k + 1][..k] == links[..k];
        error := FinishIncident(ss, links[k]);
        if error.Some? {
          FinishAllStopsAt(old(Now()), ss, links, k + 1);
          return;
        }
      }
      assert links[..|links|] == links;
      return None;
    }

    method FinishEvent(ss: Session, event: EventId) returns (error: Option<Error>)
      modifies this
      ensures error == ErrorOf(Apply(old(Now()), OpFinishEvent(ss, event)))
      ensures Now() == Step(old(Now()), OpFinishEvent(ss, event))
    {
      var before := Now();
      if event !in events || events[event].org != ss.org { return Some(NotFound); }
      if events[event].finished { return Some(AlreadyDone); }
      events := events[event := events[event].(finished := true)];
      error := FinishLinks(ss, events[event].incidents);
      if error.Some? { Restore(before); }
    }
  }
}
