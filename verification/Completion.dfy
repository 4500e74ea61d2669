/** Tasks, events and the incident lifecycle as one state. A request that touches more than one of
    them is one transaction: it succeeds in all of them or leaves all of them alone. */
module Completion {
  import opened Common
  import A = Accounts
  import E = Events
  import T = Tasks
  import W = Workflow

  datatype State = State(tasks: T.State, events: E.State, flow: W.State)

  datatype Error = OfTask(t: T.Error) | OfEvent(e: E.Error) | OfFlow(w: W.Error)

  // ----- Requests -----

  function CreateTask(s: State, ss: W.Session, task: nat, row: nat, volunteer: nat, incident: nat)
    : Result<State, Error>
  {
    match W.CreateTask(s.flow, ss, task, incident)
    case Err(e) => Err(OfFlow(e))
    case Ok(flow) =>
      match T.CreateTask(s.tasks, ss.org, task, row, volunteer)
      case Err(e) => Err(OfTask(e))
      case Ok(tasks) => Ok(s.(tasks := tasks, flow := flow))
  }

  /** `markCompleted`: the task, then the incident. */
  function CompleteTask(s: State, ss: W.Session, task: nat, now: T.Time): Result<State, Error> {
    match T.MarkCompleted(s.tasks, ss.org, task, ss.user, now)
    case Err(e) => Err(OfTask(e))
    case Ok(tasks) =>
      match W.CompleteTask(s.flow, ss, task)
      case Err(e) => Err(OfFlow(e))
      case Ok(flow) => Ok(s.(tasks := tasks, flow := flow))
  }

  function CreateEvent(s: State, ss: W.Session, event: nat, incidents: seq<nat>, maxAttendees: Option<nat>)
    : Result<State, Error>
  {
    match W.CreateEvent(s.flow, ss, event, incidents)
    case Err(e) => Err(OfFlow(e))
    case Ok(flow) =>
      match E.CreateEvent(s.events, ss.org, event, maxAttendees)
      case Err(e) => Err(OfEvent(e))
      case Ok(events) => Ok(s.(events := events, flow := flow))
  }

  /** `updateStatus`; completion goes on to the linked incidents. */
  function SetEventStatus(s: State, ss: W.Session, event: nat, status: E.Status): Result<State, Error> {
    match E.UpdateStatus(s.events, ss.org, event, status)
    case Err(e) => Err(OfEvent(e))
    case Ok(events) =>
      if status != E.Completed then Ok(s.(events := events))
      else
        match W.FinishEvent(s.flow, ss, event)
        case Err(e) => Err(OfFlow(e))
        case Ok(flow) => Ok(s.(events := events, flow := flow))
  }

  /** Joining and leaving, which concern the tasks and the events of the account together. */
  datatype People =
    | Remove(org: A.OrgId, user: A.UserId, acting: A.UserId)
    | Delete(user: A.UserId)
    | Provision(user: A.UserId)
    | Join(user: A.UserId, org: A.OrgId, role: A.Role)
  {
    function OnTasks(): T.Op {
      match this
      case Remove(org, user, acting) => T.OpRemove(org, user, acting)
      case Delete(user) => T.OpDelete(user)
      case Provision(user) => T.OpProvision(user)
      case Join(user, org, role) => T.OpMembership(user, org, role)
    }

    function OnEvents(): E.Op {
      match this
      case Remove(org, user, acting) => E.OpRemove(org, user, acting)
      case Delete(user) => E.OpDelete(user)
      case Provision(user) => E.OpProvision(user)
      case Join(user, org, role) => E.OpMembership(user, org, role)
    }
  }

  function ChangePeople(s: State, p: People): Result<State, Error> {
    match T.Apply(s.tasks, p.OnTasks())
    case Err(e) => Err(OfTask(e))
    case Ok(tasks) =>
      match E.Apply(s.events, p.OnEvents())
      case Err(e) => Err(OfEvent(e))
      case Ok(events) => Ok(s.(tasks := tasks, events := events))
  }

  /** Requests that stay within one of the three. */
  predicate TaskOnly(op: T.Op) {
    op.OpReassign? || op.OpRespond? || op.OpStart? || op.OpPhotos?
  }

  predicate EventOnly(op: E.Op) {
    op.OpRsvp? || op.OpCancel?
  }

  datatype Op =
    | OpCreateTask(ss: W.Session, task: nat, row: nat, volunteer: nat, incident: nat)
    | OpCompleteTask(ss: W.Session, task: nat, now: T.Time)
    | OpCreateEvent(ss: W.Session, event: nat, incidents: seq<nat>, maxAttendees: Option<nat>)
    | OpSetEventStatus(ss: W.Session, event: nat, status: E.Status)
    | OpPeople(people: People)
    | OpTask(t: T.Op)
    | OpEvent(e: E.Op)
    | OpFlow(w: W.Op)

  function Step(s: State, op: Op): State {
    match op
    case OpCreateTask(ss, task, row, volunteer, incident) =>
      Settle(s, CreateTask(s, ss, task, row, volunteer, incident))
    case OpCompleteTask(ss, task, now) => Settle(s, CompleteTask(s, ss, task, now))
    case OpCreateEvent(ss, event, incidents, maxAttendees) =>
      Settle(s, CreateEvent(s, ss, event, incidents, maxAttendees))
    case OpSetEventStatus(ss, event, status) => Settle(s, SetEventStatus(s, ss, event, status))
    case OpPeople(p) => Settle(s, ChangePeople(s, p))
    case OpTask(t) => if TaskOnly(t) then s.(tasks := T.Step(s.tasks, t)) else s
    case OpEvent(e) => if EventOnly(e) then s.(events := E.Step(s.events, e)) else s
    case OpFlow(w) => if W.IsTrigger(w) then s else s.(flow := W.Step(s.flow, w))
  }

  function Run(s: State, ops: seq<Op>): State
    decreases |ops|
  {
    if ops == [] then s else Run(Step(s, ops[0]), ops[1..])
  }

  // ----- The three agree -----

  ghost predicate TasksLinked(t: T.State, w: W.State) {
    && t.tasks.Keys == w.tasks.Keys
    && forall k :: k in t.tasks ==>
          w.tasks[k].org == t.tasks[k].org && (w.tasks[k].done <==> t.tasks[k].status == T.Completed)
  }

  ghost predicate EventsLinked(e: E.State, w: W.State) {
    && e.events.Keys == w.events.Keys
    && forall k :: k in e.events ==>
          w.events[k].org == e.events[k].org && (w.events[k].finished <==> e.events[k].status == E.Completed)
  }

  ghost predicate Valid(s: State) {
    && T.Valid(s.tasks) && E.Valid(s.events) && W.Valid(s.flow)
    && TasksLinked(s.tasks, s.flow) && EventsLinked(s.events, s.flow) && s.tasks.users == s.events.users
  }

  // ----- What each part leaves alone -----

  lemma EditKeepsLinks(w: W.State, op: W.Op)
    requires !W.WritesIncident(op) && !W.IsTrigger(op) && !op.OpDeleteStage?
    ensures W.Step(w, op).tasks == w.tasks && W.Step(w, op).events == w.events
  {}

  lemma FlowKeepsLinks(w: W.State, op: W.Op)
    requires W.Valid(w) && !W.IsTrigger(op)
    ensures W.Step(w, op).tasks == w.tasks && W.Step(w, op).events == w.events
  {
    if W.Apply(w, op).Err? { assert W.Step(w, op) == w; }
    else if W.WritesIncident(op) { W.WriteIsLater(w, op); }
    else if op.OpDeleteStage? { W.DeleteStageKeepsValid(w, op.ss, op.stage); }
    else { EditKeepsLinks(w, op); }
  }

  lemma AdvanceLeaves(w: W.State, ss: W.Session, trigger: W.Trigger, id: nat, current: nat)
    requires current in w.stages && id in w.incidents && W.Advance(w, ss, trigger, id, current).Ok?
    ensures var w' := W.Advance(w, ss, trigger, id, current).value; w'.tasks == w.tasks && w'.events == w.events
  {}

  lemma CompleteTaskLeaves(w: W.State, ss: W.Session, task: nat)
    requires W.CompleteTask(w, ss, task).Ok?
    ensures task in w.tasks
    ensures var w' := W.CompleteTask(w, ss, task).value;
            w'.tasks == w.tasks[task := w.tasks[task].(done := true)] && w'.events == w.events
  {
    var id := w.tasks[task].incident;
    var w1 := w.(tasks := w.tasks[task := w.tasks[task].(done := true)]);
    if W.OpenTasks(w1, ss.org, id) == {} && w1.incidents[id].org.Some? && w1.incidents[id].stage.Some? {
      AdvanceLeaves(w1, ss, W.TaskCompletion, id, w1.incidents[id].stage.value);
    }
  }

  lemma CreateTaskLeaves(w: W.State, ss: W.Session, task: nat, incident: nat)
    requires W.CreateTask(w, ss, task, incident).Ok?
    ensures var w' := W.CreateTask(w, ss, task, incident).value;
            w'.tasks == w.tasks[task := W.Task(ss.org, incident, false)] && w'.events == w.events
  {
    var w1 := W.EnsureRules(w, ss.org);
    var w2 := w1.(tasks := w1.tasks[task := W.Task(ss.org, incident, false)]);
    AdvanceLeaves(w2, ss, W.TaskCreation, incident, w.incidents[incident].stage.value);
  }

  lemma CreateEventLeaves(w: W.State, ss: W.Session, event: nat, ids: seq<nat>)
    requires W.Valid(w) && W.CreateEvent(w, ss, event, ids).Ok?
    ensures var w' := W.CreateEvent(w, ss, event, ids).value;
            w'.tasks == w.tasks && w'.events == w.events[event := W.Event(ss.org, ids, false)]
  {
    W.LinkableAllStages(w, ss, ids);
    W.NoDuplicateIsDistinct(ids);
    var w1 := W.LinkableAll(w, ss, ids).value;
    W.PutEventKeepsValid(w1, event, W.Event(ss.org, ids, false));
    W.AdvanceAllSucceeds(W.LinkEvent(w1, ss, event, ids), ss, ids, W.FoundOn(w, ids));
  }

  lemma FinishEventLeaves(w: W.State, ss: W.Session, event: nat)
    requires W.Valid(w) && W.FinishEvent(w, ss, event).Ok?
    ensures event in w.events
    ensures var w' := W.FinishEvent(w, ss, event).value;
            w'.tasks == w.tasks && w'.events == w.events[event := w.events[event].(finished := true)]
  {
    var e := w.events[event].(finished := true);
    LinkedAreOwn(w, event);
    W.PutEventKeepsValid(w, event, e);
    W.FinishAllSucceeds(w.(events := w.events[event := e]), ss, e.incidents);
  }

  lemma LinkedAreOwn(w: W.State, event: nat)
    requires W.Valid(w) && event in w.events
    ensures forall id :: id in w.events[event].incidents ==>
              id in w.incidents && w.incidents[id].org == Some(w.events[event].org)
    ensures Distinct(w.events[event].incidents)
  {}

  predicate SameTasks(t: T.State, t': T.State) {
    && t'.tasks.Keys == t.tasks.Keys
    && forall k | k in t.tasks :: t'.tasks[k].org == t.tasks[k].org
                                  && (t'.tasks[k].status == T.Completed <==> t.tasks[k].status == T.Completed)
  }

  lemma TaskOnlyKeepsTasks(t: T.State, op: T.Op)
    requires TaskOnly(op)
    ensures SameTasks(t, T.Step(t, op)) && T.Step(t, op).users == t.users
  {}

  lemma PeopleKeepTasks(t: T.State, p: People)
    ensures SameTasks(t, T.Step(t, p.OnTasks()))
  {}

  predicate SameEvents(e: E.State, e': E.State) {
    && e'.events.Keys == e.events.Keys
    && forall k | k in e.events :: e'.events[k].org == e.events[k].org && e'.events[k].status == e.events[k].status
  }

  lemma EventOnlyKeepsEvents(e: E.State, op: E.Op)
    requires EventOnly(op)
    ensures SameEvents(e, E.Step(e, op)) && E.Step(e, op).users == e.users
  {
    if E.Apply(e, op).Ok? {
      var r := E.RowAt(e, op.event);
      var r' := if op.OpRsvp? then E.RsvpRow(r, op.user).value else E.CancelRow(r, op.user);
      assert E.Step(e, op) == E.PutRow(e, op.event, r');
      assert r'.event == r.event.(rsvpCount := r'.event.rsvpCount);
    }
  }

  lemma PeopleKeepEvents(e: E.State, p: People)
    ensures SameEvents(e, E.Step(e, p.OnEvents()))
  {}

  /** Both halves look at the same accounts, so they agree on whether a person may join or leave. */
  lemma PeopleAgree(t: T.State, e: E.State, p: People)
    requires t.users == e.users
    ensures T.Apply(t, p.OnTasks()).Ok? <==> E.Apply(e, p.OnEvents()).Ok?
    ensures T.Step(t, p.OnTasks()).users == E.Step(e, p.OnEvents()).users
  {}

  // ----- Every run keeps them in step -----

  lemma PeopleKeepValid(s: State, p: People)
    requires Valid(s)
    ensures Valid(Settle(s, ChangePeople(s, p)))
  {
    PeopleAgree(s.tasks, s.events, p);
    PeopleKeepTasks(s.tasks, p);
    PeopleKeepEvents(s.events, p);
    T.StepKeepsValid(s.tasks, p.OnTasks());
    E.StepKeepsValid(s.events, p.OnEvents());
  }

  lemma PutTaskLinks(t: T.State, t': T.State, w: W.State, w': W.State, k: nat, row: T.Task, link: W.Task)
    requires TasksLinked(t, w) && t'.tasks == t.tasks[k := row] && w'.tasks == w.tasks[k := link]
    requires link.org == row.org && (link.done <==> row.status == T.Completed)
    ensures TasksLinked(t', w')
  {}

  lemma PutEventLinks(e: E.State, e': E.State, w: W.State, w': W.State, k: nat, row: E.Event, link: W.Event)
    requires EventsLinked(e, w) && e'.events == e.events[k := row] && w'.events == w.events[k := link]
    requires link.org == row.org && (link.finished <==> row.status == E.Completed)
    ensures EventsLinked(e', w')
  {}

  lemma TaskCreated(t: T.State, org: A.OrgId, task: nat, row: nat, volunteer: nat)
    requires T.CreateTask(t, org, task, row, volunteer).Ok?
    ensures var t' := T.CreateTask(t, org, task, row, volunteer).value;
            t'.tasks == t.tasks[task := T.Task(org, T.Pending, None, None, 0)] && t'.users == t.users
  {}

  lemma CreateTaskKeepsValid(s: State, ss: W.Session, task: nat, row: nat, volunteer: nat, incident: nat)
    requires Valid(s) && CreateTask(s, ss, task, row, volunteer, incident).Ok?
    ensures Valid(CreateTask(s, ss, task, row, volunteer, incident).value)
  {
    var tasks := T.CreateTask(s.tasks, ss.org, task, row, volunteer).value;
    var flow := W.CreateTask(s.flow, ss, task, incident).value;
    W.CreateTaskSucceeds(s.flow, ss, task, incident);
    CreateTaskLeaves(s.flow, ss, task, incident);
    T.CreateKeepsValid(s.tasks, ss.org, task, row, volunteer);
    TaskCreated(s.tasks, ss.org, task, row, volunteer);
    KeepEventsLinked(s.events, s.flow, flow);
    PutTaskLinks(s.tasks, tasks, s.flow, flow, task, tasks.tasks[task], flow.tasks[task]);
  }

  lemma KeepEventsLinked(e: E.State, w: W.State, w': W.State)
    requires EventsLinked(e, w) && w'.events == w.events
    ensures EventsLinked(e, w')
  {}

  lemma TaskCompleted(t: T.State, org: A.OrgId, task: nat, user: A.UserId, now: T.Time)
    requires T.MarkCompleted(t, org, task, user, now).Ok?
    ensures task in t.tasks && t.tasks[task].org == org
    ensures var t' := T.MarkCompleted(t, org, task, user, now).value;
            && t'.tasks == t.tasks[task := t.tasks[task].(status := T.Completed, completedAt := Some(now))]
            && t'.users == t.users
  {}

  lemma CompleteTaskKeepsValid(s: State, ss: W.Session, task: nat, now: T.Time)
    requires Valid(s) && CompleteTask(s, ss, task, now).Ok?
    ensures Valid(CompleteTask(s, ss, task, now).value)
  {
    var tasks := T.MarkCompleted(s.tasks, ss.org, task, ss.user, now).value;
    var flow := W.CompleteTask(s.flow, ss, task).value;
    W.CompleteTaskSucceeds(s.flow, ss, task);
    CompleteTaskLeaves(s.flow, ss, task);
    T.ProgressKeepsValid(s.tasks, T.OpComplete(ss.org, task, ss.user, now));
    assert T.Step(s.tasks, T.OpComplete(ss.org, task, ss.user, now)) == tasks;
    TaskCompleted(s.tasks, ss.org, task, ss.user, now);
    PutTaskLinks(s.tasks, tasks, s.flow, flow, task, tasks.tasks[task], s.flow.tasks[task].(done := true));
  }

  lemma EventCreated(e: E.State, org: A.OrgId, event: nat, maxAttendees: Option<nat>)
    requires E.Valid(e) && E.CreateEvent(e, org, event, maxAttendees).Ok?
    ensures var e' := E.CreateEvent(e, org, event, maxAttendees).value;
            && E.Valid(e') && e'.users == e.users
            && e'.events == e.events[event := E.Event(org, E.Scheduled, maxAttendees, 0)]
  {
    E.PutRowKeepsValid(e, event, E.Row(E.Event(org, E.Scheduled, maxAttendees, 0), multiset{}));
  }

  lemma CreateEventKeepsValid(s: State, ss: W.Session, event: nat, ids: seq<nat>, maxAttendees: Option<nat>)
    requires Valid(s) && CreateEvent(s, ss, event, ids, maxAttendees).Ok?
    ensures Valid(CreateEvent(s, ss, event, ids, maxAttendees).value)
  {
    var events := E.CreateEvent(s.events, ss.org, event, maxAttendees).value;
    var flow := W.CreateEvent(s.flow, ss, event, ids).value;
    W.CreateEventSucceeds(s.flow, ss, event, ids);
    CreateEventLeaves(s.flow, ss, event, ids);
    EventCreated(s.events, ss.org, event, maxAttendees);
    PutEventLinks(s.events, events, s.flow, flow, event, events.events[event], W.Event(ss.org, ids, false));
  }

  lemma StatusSet(e: E.State, org: A.OrgId, event: nat, status: E.Status)
    requires E.Valid(e) && E.UpdateStatus(e, org, event, status).Ok?
    ensures event in e.events && e.events[event].org == org && e.events[event].status != E.Completed
    ensures var e' := E.UpdateStatus(e, org, event, status).value;
            E.Valid(e') && e'.events == e.events[event := e.events[event].(status := status)] && e'.users == e.users
  {
    E.StatusKeepsValid(e, event, status);
  }

  lemma CompleteEventKeepsValid(s: State, ss: W.Session, event: nat)
    requires Valid(s) && SetEventStatus(s, ss, event, E.Completed).Ok?
    ensures Valid(SetEventStatus(s, ss, event, E.Completed).value)
  {
    var events := E.UpdateStatus(s.events, ss.org, event, E.Completed).value;
    var flow := W.FinishEvent(s.flow, ss, event).value;
    StatusSet(s.events, ss.org, event, E.Completed);
    W.FinishEventSucceeds(s.flow, ss, event);
    FinishEventLeaves(s.flow, ss, event);
    PutEventLinks(s.events, events, s.flow, flow, event, events.events[event], s.flow.events[event].(finished := true));
  }

  lemma KeepEventLinks(e: E.State, e': E.State, w: W.State, k: nat, row: E.Event)
    requires EventsLinked(e, w) && k in e.events && e'.events == e.events[k := row]
    requires row.org == e.events[k].org && (row.status == E.Completed <==> e.events[k].status == E.Completed)
    ensures EventsLinked(e', w)
  {}

  lemma SetEventStatusKeepsValid(s: State, ss: W.Session, event: nat, status: E.Status)
    requires Valid(s) && SetEventStatus(s, ss, event, status).Ok?
    ensures Valid(SetEventStatus(s, ss, event, status).value)
  {
    if status == E.Completed {
      CompleteEventKeepsValid(s, ss, event);
    } else {
      StatusSet(s.events, ss.org, event, status);
      var events := E.UpdateStatus(s.events, ss.org, event, status).value;
      KeepEventLinks(s.events, events, s.flow, event, events.events[event]);
    }
  }

  /** Requests that concern more than one part. */
  lemma TaskRequestsKeepValid(s: State, op: Op)
    requires Valid(s) && (op.OpCreateTask? || op.OpCompleteTask?)
    ensures Valid(Step(s, op))
  {
    if op.OpCreateTask? {
      if CreateTask(s, op.ss, op.task, op.row, op.volunteer, op.incident).Ok? {
        CreateTaskKeepsValid(s, op.ss, op.task, op.row, op.volunteer, op.incident);
      }
    } else if CompleteTask(s, op.ss, op.task, op.now).Ok? {
      CompleteTaskKeepsValid(s, op.ss, op.task, op.now);
    }
  }

  lemma EventRequestsKeepValid(s: State, op: Op)
    requires Valid(s) && (op.OpCreateEvent? || op.OpSetEventStatus?)
    ensures Valid(Step(s, op))
  {
    if op.OpCreateEvent? {
      if CreateEvent(s, op.ss, op.event, op.incidents, op.maxAttendees).Ok? {
        CreateEventKeepsValid(s, op.ss, op.event, op.incidents, op.maxAttendees);
      }
    } else if SetEventStatus(s, op.ss, op.event, op.status).Ok? {
      SetEventStatusKeepsValid(s, op.ss, op.event, op.status);
    }
  }

  lemma TaskStepKeepsValid(s: State, t: T.Op)
    requires Valid(s) && TaskOnly(t)
    ensures Valid(s.(tasks := T.Step(s.tasks, t)))
  {
    TaskOnlyKeepsTasks(s.tasks, t);
    T.StepKeepsValid(s.tasks, t);
  }

  lemma EventStepKeepsValid(s: State, e: E.Op)
    requires Valid(s) && EventOnly(e)
    ensures Valid(s.(events := E.Step(s.events, e)))
  {
    EventOnlyKeepsEvents(s.events, e);
    E.StepKeepsValid(s.events, e);
  }

  lemma FlowStepKeepsValid(s: State, w: W.Op)
    requires Valid(s) && !W.IsTrigger(w)
    ensures Valid(s.(flow := W.Step(s.flow, w)))
  {
    FlowKeepsLinks(s.flow, w);
    W.StepKeepsValid(s.flow, w);
  }

  lemma StepKeepsValid(s: State, op: Op)
    requires Valid(s)
    ensures Valid(Step(s, op))
  {
    match op {
      case OpTask(t) => if TaskOnly(t) { TaskStepKeepsValid(s, t); }
      case OpEvent(e) => if EventOnly(e) { EventStepKeepsValid(s, e); }
      case OpFlow(w) => if !W.IsTrigger(w) { FlowStepKeepsValid(s, w); }
      case OpPeople(p) => PeopleKeepValid(s, p);
      case OpCreateTask(_, _, _, _, _) => TaskRequestsKeepValid(s, op);
      case OpCompleteTask(_, _, _) => TaskRequestsKeepValid(s, op);
      case OpCreateEvent(_, _, _, _) => EventRequestsKeepValid(s, op);
      case OpSetEventStatus(_, _, _) => EventRequestsKeepValid(s, op);
    }
  }

  lemma {:induction false} RunKeepsValid(s: State, ops: seq<Op>)
    requires Valid(s)
    ensures Valid(Run(s, ops))
    decreases |ops|
  {
    if ops != [] {
      StepKeepsValid(s, ops[0]);
      RunKeepsValid(Step(s, ops[0]), ops[1..]);
    }
  }

  // ----- When a request succeeds -----

  /** The volunteer has accepted the task, it has been started, and there is a photo of it. */
  predicate MayComplete(t: T.State, org: A.OrgId, task: nat, user: A.UserId) {
    && task in t.tasks && t.tasks[task].org == org && t.tasks[task].status == T.InProgress && t.tasks[task].photos > 0
    && exists a | a in T.RowsOf(t, task, user) :: t.assignments[a].status == T.Accepted
  }

  lemma MarkCompletedIff(t: T.State, org: A.OrgId, task: nat, user: A.UserId, now: T.Time)
    requires T.OneRowPerVolunteer(t)
    ensures T.MarkCompleted(t, org, task, user, now).Ok? <==> MayComplete(t, org, task, user)
  {
    if task in t.tasks && t.tasks[task].org == org && T.OwnRow(t, org, task, user).Ok? {
      var row := T.OwnRow(t, org, task, user).value;
      assert forall a :: a in T.RowsOf(t, task, user) ==> a == row;
    }
  }

  /** Completing a task succeeds, in every reachable state, exactly when its own conditions hold:
      the accepted assignee asks, the task is in progress, and it has a photo. Nothing about the
      incident, its stage, the rules or the other tasks can make the request fail. */
  lemma TaskCompletionIff(s: State, ops: seq<Op>, ss: W.Session, task: nat, now: T.Time)
    requires Valid(s)
    ensures CompleteTask(Run(s, ops), ss, task, now).Ok? <==> MayComplete(Run(s, ops).tasks, ss.org, task, ss.user)
  {
    RunKeepsValid(s, ops);
    MarkCompletedIff(Run(s, ops).tasks, ss.org, task, ss.user, now);
    W.CompleteTaskSucceeds(Run(s, ops).flow, ss, task);
  }

  /** Completing an event succeeds exactly when it is an ongoing event of the organisation. */
  lemma EventCompletionIff(s: State, ops: seq<Op>, ss: W.Session, event: nat)
    requires Valid(s)
    ensures var e := Run(s, ops).events.events;
            SetEventStatus(Run(s, ops), ss, event, E.Completed).Ok?
            <==> event in e && e[event].org == ss.org && e[event].status == E.Ongoing
  {
    RunKeepsValid(s, ops);
    W.FinishEventSucceeds(Run(s, ops).flow, ss, event);
  }

  /** Creating a task succeeds exactly when the incident qualifies and the assignee is an active
      volunteer of the organisation (and the new keys are new). */
  lemma TaskCreationIff(s: State, ops: seq<Op>, ss: W.Session, task: nat, row: nat, volunteer: nat, incident: nat)
    requires Valid(s)
    ensures var s' := Run(s, ops);
            CreateTask(s', ss, task, row, volunteer, incident).Ok?
            <==> && W.Qualifies(s'.flow, ss.org, W.TaskCreation, incident)
                 && A.IsActiveVolunteer(s'.tasks.users, ss.org, volunteer)
                 && task !in s'.tasks.tasks && row !in s'.tasks.assignments
  {
    RunKeepsValid(s, ops);
    W.CreateTaskSucceeds(Run(s, ops).flow, ss, task, incident);
  }

  /** Completing a task moves its incident exactly when every other task of the incident is
      completed by then, by the statuses that the task service keeps. */
  lemma LastCompletionMoves(s: State, ops: seq<Op>, ss: W.Session, task: nat, now: T.Time)
    requires Valid(s) && CompleteTask(Run(s, ops), ss, task, now).Ok?
    ensures var s1, s2 := Run(s, ops), CompleteTask(Run(s, ops), ss, task, now).value;
            && task in s1.flow.tasks
            && var id := s1.flow.tasks[task].incident;
               var last := forall t :: t in s1.flow.tasks && s1.flow.tasks[t].incident == id && t != task
                                       ==> t in s1.tasks.tasks && s1.tasks.tasks[t].status == T.Completed;
               W.Triggered(s1.flow, s2.flow, ss.org, W.TaskCompletion, if last then [id] else [])
  {
    RunKeepsValid(s, ops);
    var s1 := Run(s, ops);
    W.CompleteTaskMoves(s1.flow, ss, task);
    OpenIffNotCompleted(s1, ss, task);
  }

  lemma OpenIffNotCompleted(s: State, ss: W.Session, task: nat)
    requires Valid(s) && task in s.flow.tasks && s.flow.tasks[task].org == ss.org && !s.flow.tasks[task].done
    ensures var id := s.flow.tasks[task].incident;
            W.OpenTasks(s.flow, ss.org, id) == {task} <==>
              forall t :: t in s.flow.tasks && s.flow.tasks[t].incident == id && t != task
                          ==> t in s.tasks.tasks && s.tasks.tasks[t].status == T.Completed
  {
    var id := s.flow.tasks[task].incident;
    assert task in W.OpenTasks(s.flow, ss.org, id);
    forall t | t in s.flow.tasks && s.flow.tasks[t].incident == id ensures s.flow.tasks[t].org == ss.org {
      assert s.flow.incidents[id].org == Some(s.flow.tasks[t].org);
      assert s.flow.incidents[id].org == Some(s.flow.tasks[task].org);
    }
    assert forall t :: t in s.flow.tasks && s.flow.tasks[t].incident == id
                       ==> (t in W.OpenTasks(s.flow, ss.org, id) <==> s.tasks.tasks[t].status != T.Completed);
  }

  /** A request that concerns several services succeeds exactly if it succeeds in each, and does in each
      what it does there; no part is left out and none of the others changes. */
  lemma PartsAgree(s: State, ss: W.Session, key: nat, row: nat, volunteer: nat, incident: nat, now: T.Time,
      incidents: seq<nat>, maxAttendees: Option<nat>, status: E.Status)
    ensures var r, t, w := CreateTask(s, ss, key, row, volunteer, incident),
                           T.CreateTask(s.tasks, ss.org, key, row, volunteer), W.CreateTask(s.flow, ss, key, incident);
            && (r.Ok? <==> t.Ok? && w.Ok?) && (r.Ok? ==> r.value == State(t.value, s.events, w.value))
    ensures var r, t, w := CompleteTask(s, ss, key, now),
                           T.MarkCompleted(s.tasks, ss.org, key, ss.user, now), W.CompleteTask(s.flow, ss, key);
            && (r.Ok? <==> t.Ok? && w.Ok?) && (r.Ok? ==> r.value == State(t.value, s.events, w.value))
    ensures var r, e, w := CreateEvent(s, ss, key, incidents, maxAttendees),
                           E.CreateEvent(s.events, ss.org, key, maxAttendees),
                           W.CreateEvent(s.flow, ss, key, incidents);
            && (r.Ok? <==> e.Ok? && w.Ok?) && (r.Ok? ==> r.value == State(s.tasks, e.value, w.value))
    ensures var r, e, w := SetEventStatus(s, ss, key, status),
                           E.UpdateStatus(s.events, ss.org, key, status), W.FinishEvent(s.flow, ss, key);
            && (r.Ok? <==> e.Ok? && (status == E.Completed ==> w.Ok?))
            && (r.Ok? ==> r.value == State(s.tasks, e.value, if status == E.Completed then w.value else s.flow))
  {}

  /** Joining and leaving change the tasks and the events of the account together, or neither. */
  lemma PeopleInBoth(s: State, p: People)
    requires Valid(s)
    ensures var r := ChangePeople(s, p);
            && (r.Ok? <==> T.Apply(s.tasks, p.OnTasks()).Ok?) && (r.Ok? <==> E.Apply(s.events, p.OnEvents()).Ok?)
            && (r.Ok? ==> r.value == State(T.Step(s.tasks, p.OnTasks()), E.Step(s.events, p.OnEvents()), s.flow))
  {
    PeopleAgree(s.tasks, s.events, p);
  }

  /** And afterwards both see the same accounts, changed as the request says. */
  lemma PeopleOutcome(s: State, p: People)
    requires Valid(s) && ChangePeople(s, p).Ok?
    ensures var s', u := ChangePeople(s, p).value, s.tasks.users;
            && s'.events.users == s'.tasks.users
            && (p.Delete? ==> s'.tasks.users == u - {p.user})
            && (p.Provision? ==> s'.tasks.users == u[p.user := A.User(None, A.Citizen, true, false)])
            && (p.Join? ==>
                  && p.user in u
                  && s'.tasks.users ==
                     u[p.user := A.User(Some(p.org), p.role, u[p.user].active, u[p.user].platformAdmin)])
            && (p.Remove? ==>
                  && p.user in u
                  && s'.tasks.users ==
                     u[p.user := A.User(None, A.Citizen, u[p.user].active, u[p.user].platformAdmin)])
  {
    PeopleAgree(s.tasks, s.events, p);
    match p
    case Delete(user) => AfterDeletion(s.tasks, user);
    case Provision(user) => T.PeopleOutcome(s.tasks, user, 0, A.Citizen);
    case Join(user, org, role) => T.PeopleOutcome(s.tasks, user, org, role);
    case Remove(org, user, acting) => AfterRemoval(s.tasks, org, user, acting);
  }

  lemma AfterDeletion(t: T.State, user: A.UserId)
    requires T.Valid(t) && T.Apply(t, T.OpDelete(user)).Ok?
    ensures T.Step(t, T.OpDelete(user)).users == t.users - {user}
  {
    if user in t.users { T.DeletionOutcome(t, user); }
  }

  lemma AfterRemoval(t: T.State, org: A.OrgId, user: A.UserId, acting: A.UserId)
    requires T.Apply(t, T.OpRemove(org, user, acting)).Ok?
    ensures user in t.users
    ensures T.Step(t, T.OpRemove(org, user, acting)).users ==
            t.users[user := A.User(None, A.Citizen, t.users[user].active, t.users[user].platformAdmin)]
  {
    T.RemovalEndsMembership(t, org, user, acting);
  }
}
