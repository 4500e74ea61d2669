/** Tasks and their assignments, as changed by three services: `TasksService`,
    `OrganisationMembersService.removeVolunteer` and `UsersService.deleteAccount`. Every request
    is one transaction; a run is a sequence of them. */
module Tasks {
  import opened Common
  import opened Accounts

  type TaskId = nat
  type AssignmentId = nat
  type Time = int

  datatype TaskStatus = Pending | InProgress | Completed

  datatype Task = Task(org: OrgId, status: TaskStatus, startedAt: Option<Time>, completedAt: Option<Time>, photos: nat)

  datatype AssignmentStatus = Assigned | Accepted | Declined | Cancelled

  datatype Assignment = Assignment(org: OrgId, task: TaskId, volunteer: UserId, status: AssignmentStatus)
  {
    predicate Active() {
      status == Assigned || status == Accepted
    }
  }

  datatype State = State(
    tasks: map<TaskId, Task>,
    assignments: map<AssignmentId, Assignment>,
    users: Users)

  datatype Error =
    | TaskNotFound
    | NotActiveVolunteer
    | NotAssigned
    | AlreadyResponded
    | NotAccepted
    | NotPending
    | NotInProgress
    | NoPhotos
    | RowIdTaken
    | Account(error: AccountError)

  // ----- Queries -----

  /** The active rows of a task; `findFirst` returns one of them. */
  function ActiveOn(s: State, task: TaskId): set<AssignmentId> {
    set a | a in s.assignments && s.assignments[a].task == task && s.assignments[a].Active()
  }

  function RowsOf(s: State, task: TaskId, user: UserId): set<AssignmentId> {
    set a | a in s.assignments && s.assignments[a].task == task && s.assignments[a].volunteer == user
  }

  function ActiveRows(s: State, scope: Scope, user: UserId): set<AssignmentId> {
    set a | a in s.assignments && scope.Covers(s.assignments[a].org) && s.assignments[a].volunteer == user
            && s.assignments[a].Active()
  }

  // ----- TasksService -----

  function CreateTask(s: State, org: OrgId, task: TaskId, row: AssignmentId, volunteer: UserId): Result<State, Error> {
    if !IsActiveVolunteer(s.users, org, volunteer) then Err(NotActiveVolunteer)
    else if task in s.tasks || row in s.assignments then Err(RowIdTaken)
    else Ok(s.(tasks := s.tasks[task := Task(org, Pending, None, None, 0)],
               assignments := s.assignments[row := Assignment(org, task, volunteer, Assigned)]))
  }

  function SetStatus(s: State, row: AssignmentId, status: AssignmentStatus): State
    requires row in s.assignments
  {
    s.(assignments := s.assignments[row := s.assignments[row].(status := status)])
  }

  /** `update` with a new assignee: cancel whoever is active, then reuse or insert the row of
      the incoming volunteer. */
  function Reassign(s: State, org: OrgId, task: TaskId, volunteer: UserId, row: AssignmentId): Result<State, Error> {
    if task !in s.tasks || s.tasks[task].org != org then Err(TaskNotFound)
    else if !IsActiveVolunteer(s.users, org, volunteer) then Err(NotActiveVolunteer)
    else
      var current := First(ActiveOn(s, task));
      if current.Some? && s.assignments[current.value].volunteer == volunteer then Ok(s)
      else
        var s1 := if current.Some? then SetStatus(s, current.value, Cancelled) else s;
        var existing := First(RowsOf(s1, task, volunteer));
        if existing.Some? then Ok(SetStatus(s1, existing.value, Assigned))
        else if row in s1.assignments then Err(RowIdTaken)
        else Ok(s1.(assignments := s1.assignments[row := Assignment(org, task, volunteer, Assigned)]))
  }

  /** `findOwnAssignment`: the volunteer's own row on a task of the organisation. */
  function OwnRow(s: State, org: OrgId, task: TaskId, volunteer: UserId): (r: Result<AssignmentId, Error>)
    ensures r.Ok? ==> task in s.tasks && s.tasks[task].org == org && r.value in RowsOf(s, task, volunteer)
  {
    if task !in s.tasks || s.tasks[task].org != org then Err(TaskNotFound)
    else
      var row := First(RowsOf(s, task, volunteer));
      if row.None? then Err(NotAssigned) else Ok(row.value)
  }

  function Respond(s: State, org: OrgId, task: TaskId, volunteer: UserId, accept: bool): Result<State, Error> {
    var row := OwnRow(s, org, task, volunteer);
    if row.Err? then Err(row.error)
    else if s.assignments[row.value].status != Assigned then Err(AlreadyResponded)
    else Ok(SetStatus(s, row.value, if accept then Accepted else Declined))
  }

  function AcceptedTask(s: State, org: OrgId, task: TaskId, volunteer: UserId): (r: Result<Task, Error>)
    ensures r.Ok? ==> task in s.tasks && r.value == s.tasks[task]
  {
    var row := OwnRow(s, org, task, volunteer);
    if row.Err? then Err(row.error)
    else if s.assignments[row.value].status != Accepted then Err(NotAccepted)
    else Ok(s.tasks[task])
  }

  function MarkInProgress(s: State, org: OrgId, task: TaskId, volunteer: UserId, now: Time): Result<State, Error> {
    var t := AcceptedTask(s, org, task, volunteer);
    if t.Err? then Err(t.error)
    else if t.value.status != Pending then Err(NotPending)
    else Ok(s.(tasks := s.tasks[task := t.value.(status := InProgress, startedAt := Some(now))]))
  }

  function AddPhotos(s: State, org: OrgId, task: TaskId, volunteer: UserId, count: nat): Result<State, Error> {
    var t := AcceptedTask(s, org, task, volunteer);
    if t.Err? then Err(t.error)
    else if count == 0 then Err(NoPhotos)
    else Ok(s.(tasks := s.tasks[task := t.value.(photos := t.value.photos + count)]))
  }

  function MarkCompleted(s: State, org: OrgId, task: TaskId, volunteer: UserId, now: Time): Result<State, Error> {
    var t := AcceptedTask(s, org, task, volunteer);
    if t.Err? then Err(t.error)
    else if t.value.status != InProgress then Err(NotInProgress)
    else if t.value.photos == 0 then Err(NoPhotos)
    else Ok(s.(tasks := s.tasks[task := t.value.(status := Completed, completedAt := Some(now))]))
  }

  // ----- Cancelling what a departing volunteer holds -----

  function Reset(t: Task): Task {
    if t.status == Completed then t else t.(status := Pending, startedAt := None)
  }

  /** Cancel the given rows and return their tasks, unless completed, to pending. */
  function CancelRows(s: State, rows: set<AssignmentId>): State
    requires rows <= s.assignments.Keys
  {
    s.(tasks := map t | t in s.tasks ::
                  if exists a | a in rows :: s.assignments[a].task == t then Reset(s.tasks[t]) else s.tasks[t],
       assignments := map a | a in s.assignments ::
                  if a in rows then s.assignments[a].(status := Cancelled) else s.assignments[a])
  }

  function CancelHeld(s: State, scope: Scope, user: UserId): State {
    CancelRows(s, ActiveRows(s, scope, user))
  }

  function RemoveVolunteer(s: State, org: OrgId, user: UserId, acting: UserId): Result<State, Error> {
    var refused := CheckRemoval(s.users, org, user, acting);
    if refused.Some? then Err(Account(refused.value))
    else
      var s1 := CancelHeld(s, Only(org), user);
      Ok(s1.(users := Dismiss(s1.users, user)))
  }

  // ----- Account deletion -----

  /** The anti-join UPDATE: the user's rows move to the sentinel, except on tasks where the
      sentinel has a row already. The statement names no organisation; row-level security confines
      it to what the session sees. */
  function Repoint(s: State, scope: Scope, user: UserId): State {
    s.(assignments := map a | a in s.assignments ::
         if scope.Covers(s.assignments[a].org) && s.assignments[a].volunteer == user
            && !(exists b | b in s.assignments ::
                   scope.Covers(s.assignments[b].org) && s.assignments[b].task == s.assignments[a].task
                   && s.assignments[b].volunteer == SENTINEL)
         then s.assignments[a].(volunteer := SENTINEL)
         else s.assignments[a])
  }

  function DropRows(s: State, scope: Scope, user: UserId): State {
    s.(assignments := map a | a in s.assignments
         && !(scope.Covers(s.assignments[a].org) && s.assignments[a].volunteer == user) :: s.assignments[a])
  }

  function ReassignTaskAssignments(s: State, scope: Scope, user: UserId): State {
    CancelHeld(DropRows(Repoint(s, scope, user), scope, user), scope, SENTINEL)
  }

  /** DELETE FROM users, with ON DELETE CASCADE on every assignment still naming the user. */
  function DropUser(s: State, user: UserId): State {
    s.(users := s.users - {user},
       assignments := map a | a in s.assignments && s.assignments[a].volunteer != user :: s.assignments[a])
  }

  function DeleteAccount(s: State, user: UserId): Result<State, Error> {
    var refused := CheckDeletion(s.users, user);
    if refused.Some? then Err(Account(refused.value))
    else if user !in s.users then Ok(s)
    else if s.users[user].org.None? then Ok(DropUser(s, user))
    else Ok(DropUser(ReassignTaskAssignments(s, ScopeOf(s.users[user]), user), user))
  }

  function WithUsers(s: State, r: Result<Users, AccountError>): Result<State, Error> {
    match r
    case Ok(users) => Ok(s.(users := users))
    case Err(e) => Err(Account(e))
  }

  // ----- Runs -----

  datatype Op =
    | OpCreate(org: OrgId, task: TaskId, row: AssignmentId, user: UserId)
    | OpReassign(org: OrgId, task: TaskId, user: UserId, row: AssignmentId)
    | OpRespond(org: OrgId, task: TaskId, user: UserId, accept: bool)
    | OpStart(org: OrgId, task: TaskId, user: UserId, now: Time)
    | OpPhotos(org: OrgId, task: TaskId, user: UserId, count: nat)
    | OpComplete(org: OrgId, task: TaskId, user: UserId, now: Time)
    | OpRemove(org: OrgId, user: UserId, acting: UserId)
    | OpDelete(user: UserId)
    | OpProvision(user: UserId)
    | OpMembership(user: UserId, org: OrgId, role: Role)

  function Apply(s: State, op: Op): Result<State, Error> {
    match op
    case OpCreate(org, task, row, user) => CreateTask(s, org, task, row, user)
    case OpReassign(org, task, user, row) => Reassign(s, org, task, user, row)
    case OpRespond(org, task, user, accept) => Respond(s, org, task, user, accept)
    case OpStart(org, task, user, now) => MarkInProgress(s, org, task, user, now)
    case OpPhotos(org, task, user, count) => AddPhotos(s, org, task, user, count)
    case OpComplete(org, task, user, now) => MarkCompleted(s, org, task, user, now)
    case OpRemove(org, user, acting) => RemoveVolunteer(s, org, user, acting)
    case OpDelete(user) => DeleteAccount(s, user)
    case OpProvision(user) => WithUsers(s, Provision(s.users, user))
    case OpMembership(user, org, role) => WithUsers(s, SetMembership(s.users, user, org, role))
  }

  function Step(s: State, op: Op): State {
    Settle(s, Apply(s, op))
  }

  function Run(s: State, ops: seq<Op>): State
    decreases |ops|
  {
    if ops == [] then s else Run(Step(s, ops[0]), ops[1..])
  }

  // ----- What every reachable state satisfies -----

  /** UNIQUE (task_id, volunteer_user_id). */
  ghost predicate OneRowPerVolunteer(s: State) {
    forall a, b :: a in s.assignments && b in s.assignments && a != b
                   && s.assignments[a].task == s.assignments[b].task
                   ==> s.assignments[a].volunteer != s.assignments[b].volunteer
  }

  ghost predicate OneActiveRow(s: State) {
    forall a, b :: a in s.assignments && b in s.assignments && a != b
                   && s.assignments[a].task == s.assignments[b].task
                   ==> !(s.assignments[a].Active() && s.assignments[b].Active())
  }

  ghost predicate RowsMatchTasks(s: State) {
    forall a :: a in s.assignments ==>
      s.assignments[a].task in s.tasks && s.tasks[s.assignments[a].task].org == s.assignments[a].org
  }

  ghost predicate SentinelIdle(s: State) {
    && (SENTINEL in s.users ==> !s.users[SENTINEL].active)
    && SENTINEL in s.users
    && (forall a :: a in s.assignments && s.assignments[a].volunteer == SENTINEL ==> !s.assignments[a].Active())
  }

  predicate TaskConsistent(t: Task) {
    && (t.status == Pending <==> t.startedAt.None?)
    && (t.status == Completed <==> t.completedAt.Some?)
    && (t.status == Completed ==> t.photos > 0)
  }

  ghost predicate TasksConsistent(s: State) {
    forall t :: t in s.tasks ==> TaskConsistent(s.tasks[t])
  }

  ghost predicate Valid(s: State) {
    OneRowPerVolunteer(s) && OneActiveRow(s) && RowsMatchTasks(s) && SentinelIdle(s) && TasksConsistent(s)
  }

  lemma WriteRowKeepsValid(s: State, row: AssignmentId, r: Assignment)
    requires Valid(s) && r.task in s.tasks && s.tasks[r.task].org == r.org
    requires forall b :: b in s.assignments && b != row && s.assignments[b].task == r.task
                         ==> s.assignments[b].volunteer != r.volunteer && !(r.Active() && s.assignments[b].Active())
    requires r.volunteer == SENTINEL ==> !r.Active()
    ensures Valid(s.(assignments := s.assignments[row := r]))
  {}

  lemma WriteTaskKeepsValid(s: State, task: TaskId, t: Task)
    requires Valid(s) && TaskConsistent(t)
    requires task in s.tasks ==> s.tasks[task].org == t.org
    ensures Valid(s.(tasks := s.tasks[task := t]))
  {}

  lemma CreateKeepsValid(s: State, org: OrgId, task: TaskId, row: AssignmentId, volunteer: UserId)
    requires Valid(s) && CreateTask(s, org, task, row, volunteer).Ok?
    ensures Valid(CreateTask(s, org, task, row, volunteer).value)
  {
    WriteTaskKeepsValid(s, task, Task(org, Pending, None, None, 0));
    var s1 := s.(tasks := s.tasks[task := Task(org, Pending, None, None, 0)]);
    WriteRowKeepsValid(s1, row, Assignment(org, task, volunteer, Assigned));
  }

  lemma SetStatusKeepsValid(s: State, row: AssignmentId, status: AssignmentStatus)
    requires Valid(s) && row in s.assignments
    requires status == Assigned || status == Accepted ==>
      s.assignments[row].Active()
          || (s.assignments[row].volunteer != SENTINEL && ActiveOn(s, s.assignments[row].task) == {})
    ensures Valid(SetStatus(s, row, status))
  {
    forall b | b in s.assignments && b != row && s.assignments[b].task == s.assignments[row].task
      ensures s.assignments[row].Active() ==> !s.assignments[b].Active()
      ensures ActiveOn(s, s.assignments[row].task) == {} ==> !s.assignments[b].Active()
    {
      assert s.assignments[b].Active() ==> b in ActiveOn(s, s.assignments[row].task);
    }
    WriteRowKeepsValid(s, row, s.assignments[row].(status := status));
  }

  lemma ReassignKeepsValid(s: State, org: OrgId, task: TaskId, volunteer: UserId, row: AssignmentId)
    requires Valid(s) && Reassign(s, org, task, volunteer, row).Ok?
    ensures Valid(Reassign(s, org, task, volunteer, row).value)
  {
    var current := First(ActiveOn(s, task));
    if !(current.Some? && s.assignments[current.value].volunteer == volunteer) {
      var s1 := if current.Some? then SetStatus(s, current.value, Cancelled) else s;
      if current.Some? { SetStatusKeepsValid(s, current.value, Cancelled); }
      NobodyElseActive(s, task, current);
      var existing := First(RowsOf(s1, task, volunteer));
      if existing.Some? {
        SetStatusKeepsValid(s1, existing.value, Assigned);
      } else {
        forall b | b in s1.assignments && s1.assignments[b].task == task
          ensures s1.assignments[b].volunteer != volunteer && !s1.assignments[b].Active()
        {
          assert b !in RowsOf(s1, task, volunteer) && b !in ActiveOn(s1, task);
        }
        WriteRowKeepsValid(s1, row, Assignment(org, task, volunteer, Assigned));
      }
    }
  }

  lemma NobodyElseActive(s: State, task: TaskId, current: Option<AssignmentId>)
    requires OneActiveRow(s) && current == First(ActiveOn(s, task))
    ensures current.None? ==> ActiveOn(s, task) == {}
    ensures current.Some? ==> ActiveOn(SetStatus(s, current.value, Cancelled), task) == {}
  {}

  lemma CancelRowsKeepsValid(s: State, rows: set<AssignmentId>)
    requires OneRowPerVolunteer(s) && OneActiveRow(s) && RowsMatchTasks(s) && TasksConsistent(s)
    requires rows <= s.assignments.Keys
    ensures var s' := CancelRows(s, rows);
            OneRowPerVolunteer(s') && OneActiveRow(s') && RowsMatchTasks(s') && TasksConsistent(s')
  {}

  lemma RepointKeepsUnique(s: State, scope: Scope, user: UserId)
    requires OneRowPerVolunteer(s) && RowsMatchTasks(s) && user != SENTINEL
    ensures OneRowPerVolunteer(Repoint(s, scope, user))
  {
    var s1 := Repoint(s, scope, user);
    forall a, b | a in s1.assignments && b in s1.assignments && a != b
                  && s1.assignments[a].task == s1.assignments[b].task
      ensures s1.assignments[a].volunteer != s1.assignments[b].volunteer
    {}
  }

  /** Repointing changes whose row it is, and nothing else. */
  lemma RepointedFields(s: State, scope: Scope, user: UserId)
    ensures var s1 := Repoint(s, scope, user);
            && s1 == s.(assignments := s1.assignments) && s1.assignments.Keys == s.assignments.Keys
            && forall a :: a in s.assignments ==>
                 s1.assignments[a] == s.assignments[a].(volunteer := s1.assignments[a].volunteer)
  {}

  lemma RepointAndDropKeepsValid(s: State, scope: Scope, user: UserId)
    requires Valid(s) && user != SENTINEL
    ensures var s' := DropRows(Repoint(s, scope, user), scope, user);
            OneRowPerVolunteer(s') && OneActiveRow(s') && RowsMatchTasks(s') && TasksConsistent(s')
  {
    RepointKeepsUnique(s, scope, user);
    RepointedFields(s, scope, user);
    DropKeepsValid(Repoint(s, scope, user), scope, user);
  }

  lemma DropKeepsValid(s: State, scope: Scope, user: UserId)
    requires OneRowPerVolunteer(s) && OneActiveRow(s) && RowsMatchTasks(s) && TasksConsistent(s)
    ensures var s' := DropRows(s, scope, user);
            OneRowPerVolunteer(s') && OneActiveRow(s') && RowsMatchTasks(s') && TasksConsistent(s')
  {}

  lemma DeleteKeepsValid(s: State, scope: Scope, user: UserId)
    requires Valid(s) && user != SENTINEL
    ensures Valid(ReassignTaskAssignments(s, scope, user))
  {
    RepointAndDropKeepsValid(s, scope, user);
    var s2 := DropRows(Repoint(s, scope, user), scope, user);
    CancelRowsKeepsValid(s2, ActiveRows(s2, scope, SENTINEL));
  }

  lemma ProgressKeepsValid(s: State, op: Op)
    requires Valid(s) && (op.OpStart? || op.OpPhotos? || op.OpComplete?)
    ensures Valid(Step(s, op))
  {
    if Apply(s, op).Ok? {
      assert TaskConsistent(s.tasks[op.task]);
      WriteTaskKeepsValid(s, op.task, Step(s, op).tasks[op.task]);
    }
  }

  lemma StepKeepsValid(s: State, op: Op)
    requires Valid(s)
    ensures Valid(Step(s, op))
  {
    match op
    case OpCreate(org, task, row, user) =>
      if Apply(s, op).Ok? { CreateKeepsValid(s, org, task, row, user); }
    case OpReassign(org, task, user, row) =>
      if Apply(s, op).Ok? { ReassignKeepsValid(s, org, task, user, row); }
    case OpRespond(org, task, user, accept) =>
      if Apply(s, op).Ok? {
        SetStatusKeepsValid(s, OwnRow(s, org, task, user).value, if accept then Accepted else Declined);
      }
    case OpStart(_, _, _, _) => ProgressKeepsValid(s, op);
    case OpPhotos(_, _, _, _) => ProgressKeepsValid(s, op);
    case OpComplete(_, _, _, _) => ProgressKeepsValid(s, op);
    case OpRemove(org, user, acting) =>
      CancelRowsKeepsValid(s, ActiveRows(s, Only(org), user));
    case OpDelete(user) =>
      if user != SENTINEL && user in s.users && s.users[user].org.Some? {
        DeleteKeepsValid(s, ScopeOf(s.users[user]), user);
      }
    case _ =>
  }

  /** Over every run of every service: one row per volunteer and task, at most one of them
      active, and a task's status agrees with its timestamps and photos. */
  lemma {:induction false} RunKeepsValid(s: State, ops: seq<Op>)
    requires Valid(s)
    ensures Valid(Run(s, ops))
    decreases |ops|
  {
    if ops != [] {
      StepKeepsValid(s, ops[0]);
      RunKeepsValid(Step(s, ops[0]), ops[1..]);
    }
  }

  /** In every reachable state every row belongs to a task of its own organisation, and no row of a
      deleted account is active. */
  lemma DeletedAccountsHoldNothing(s: State, ops: seq<Op>, a: AssignmentId)
    requires Valid(s) && a in Run(s, ops).assignments
    ensures var s' := Run(s, ops);
            var x := s'.assignments[a];
            && x.task in s'.tasks && s'.tasks[x.task].org == x.org
            && (x.volunteer == SENTINEL ==> !x.Active())
  {
    RunKeepsValid(s, ops);
  }

  /** In every reachable state a task has at most one row per volunteer and at most one active
      row in all. */
  lemma SingleActiveAssignee(s: State, ops: seq<Op>, a: AssignmentId, b: AssignmentId)
    requires Valid(s)
    requires var s' := Run(s, ops);
             a in s'.assignments && b in s'.assignments && a != b && s'.assignments[a].task == s'.assignments[b].task
    ensures var s' := Run(s, ops);
            var x, y := s'.assignments[a], s'.assignments[b];
            && x.volunteer != y.volunteer && !(x.Active() && y.Active())
            && x.task in s'.tasks && s'.tasks[x.task].org == x.org == y.org
            && (x.volunteer == SENTINEL ==> !x.Active())
  {
    RunKeepsValid(s, ops);
  }

  /** In every reachable state a task is pending exactly without a start, completed exactly with
      a completion time, and never completed without a photo. */
  lemma LifecycleIsConsistent(s: State, ops: seq<Op>, task: TaskId)
    requires Valid(s) && task in Run(s, ops).tasks
    ensures var t := Run(s, ops).tasks[task];
            && (t.status == Pending <==> t.startedAt.None?)
            && (t.status == Completed <==> t.completedAt.Some?)
            && (t.status == Completed ==> t.photos > 0)
  {
    RunKeepsValid(s, ops);
    assert TaskConsistent(Run(s, ops).tasks[task]);
  }

  // ----- Completion is final -----

  ghost predicate StillCompleted(t: Task, tasks: map<TaskId, Task>, task: TaskId) {
    task in tasks && tasks[task].photos >= t.photos && tasks[task] == t.(photos := tasks[task].photos)
  }

  lemma CancelKeepsCompleted(s: State, rows: set<AssignmentId>, task: TaskId)
    requires rows <= s.assignments.Keys && task in s.tasks && s.tasks[task].status == Completed
    ensures StillCompleted(s.tasks[task], CancelRows(s, rows).tasks, task)
  {}

  lemma DeletionKeepsCompleted(s: State, user: UserId, task: TaskId)
    requires task in s.tasks && s.tasks[task].status == Completed
    ensures StillCompleted(s.tasks[task], Step(s, OpDelete(user)).tasks, task)
  {
    if user in s.users && s.users[user].org.Some? {
      var scope := ScopeOf(s.users[user]);
      var s2 := DropRows(Repoint(s, scope, user), scope, user);
      CancelKeepsCompleted(s2, ActiveRows(s2, scope, SENTINEL), task);
    }
  }

  lemma StepKeepsCompleted(s: State, op: Op, task: TaskId)
    requires Valid(s) && task in s.tasks && s.tasks[task].status == Completed
    ensures StillCompleted(s.tasks[task], Step(s, op).tasks, task)
  {
    if op.OpRemove? { CancelKeepsCompleted(s, ActiveRows(s, Only(op.org), op.user), task); }
    if op.OpDelete? { DeletionKeepsCompleted(s, op.user, task); }
  }

  /** No run of any of the services takes a task out of completed, or touches its timestamps. */
  lemma {:induction false} CompletedIsAbsorbing(s: State, ops: seq<Op>, task: TaskId)
    requires Valid(s) && task in s.tasks && s.tasks[task].status == Completed
    ensures var t, t' := s.tasks[task], Run(s, ops).tasks;
            task in t' && t'[task].photos >= t.photos && t'[task] == t.(photos := t'[task].photos)
    decreases |ops|
  {
    if ops != [] {
      StepKeepsCompleted(s, ops[0], task);
      StepKeepsValid(s, ops[0]);
      CompletedIsAbsorbing(Step(s, ops[0]), ops[1..], task);
    }
  }

  // ----- Removing a volunteer -----

  ghost predicate Holds(s: State, user: UserId, task: TaskId) {
    exists a :: a in RowsOf(s, task, user) && s.assignments[a].Active()
  }

  /** The volunteer holds nothing in the organisation any more, everybody else's rows are as
      they were, and exactly the tasks the volunteer held have been reset. No task that
      somebody else holds is touched. */
  lemma RemovalIsExact(s: State, org: OrgId, user: UserId, acting: UserId)
    requires Valid(s) && RemoveVolunteer(s, org, user, acting).Ok?
    ensures var s' := RemoveVolunteer(s, org, user, acting).value;
            && ActiveRows(s', Only(org), user) == {}
            && s'.assignments.Keys == s.assignments.Keys && s'.tasks.Keys == s.tasks.Keys
            && (forall a :: a in s.assignments && s.assignments[a].volunteer != user ==>
                  s'.assignments[a] == s.assignments[a])
            && (forall t :: t in s.tasks ==>
                  s'.tasks[t] == if s.tasks[t].org == org && Holds(s, user, t) then Reset(s.tasks[t]) else s.tasks[t])
            && (forall t, v :: t in s.tasks && v != user && Holds(s, v, t) ==> s'.tasks[t] == s.tasks[t])
  {
    var s', rows := RemoveVolunteer(s, org, user, acting).value, ActiveRows(s, Only(org), user);
    forall t | t in s.tasks
      ensures (exists a | a in rows :: s.assignments[a].task == t) <==> s.tasks[t].org == org && Holds(s, user, t)
    {
      if s.tasks[t].org == org && Holds(s, user, t) {
        var a :| a in RowsOf(s, t, user) && s.assignments[a].Active();
        assert a in rows;
      }
      assert forall a :: a in rows && s.assignments[a].task == t ==> a in RowsOf(s, t, user);
    }
    forall t, v | t in s.tasks && v != user && Holds(s, v, t) ensures !Holds(s, user, t) {
      var b :| b in RowsOf(s, t, v) && s.assignments[b].Active();
      assert forall a :: a in RowsOf(s, t, user) ==> a != b;
    }
  }

  // ----- Deleting an account -----

  lemma RepointedRow(s: State, scope: Scope, user: UserId, task: TaskId, a: AssignmentId)
    requires Valid(s) && user != SENTINEL && a in RowsOf(s, task, user) && scope.Covers(s.assignments[a].org)
    ensures var s2 := DropRows(Repoint(s, scope, user), scope, user);
            if RowsOf(s, task, SENTINEL) == {} then
              a in s2.assignments && s2.assignments[a] == s.assignments[a].(volunteer := SENTINEL)
            else a !in s2.assignments
  {
    assert forall b :: b in RowsOf(s, task, SENTINEL) ==>
        s.assignments[b].org == s.tasks[task].org == s.assignments[a].org;
    assert forall b :: b in s.assignments && s.assignments[b].task == task && s.assignments[b].volunteer == SENTINEL
                       ==> b in RowsOf(s, task, SENTINEL);
  }

  lemma UntouchedRow(s: State, scope: Scope, user: UserId, a: AssignmentId)
    requires a in s.assignments && (s.assignments[a].volunteer != user || !scope.Covers(s.assignments[a].org))
    ensures var s2 := DropRows(Repoint(s, scope, user), scope, user);
            a in s2.assignments && s2.assignments[a] == s.assignments[a]
  {}

  /** The rows of a task of the organisation after repointing and dropping. */
  lemma RepointedRows(s: State, scope: Scope, user: UserId, task: TaskId)
    requires Valid(s) && user != SENTINEL && task in s.tasks && scope.Covers(s.tasks[task].org)
    ensures var s2 := DropRows(Repoint(s, scope, user), scope, user);
            && RowsOf(s2, task, user) == {}
            && RowsOf(s2, task, SENTINEL)
               == (if RowsOf(s, task, SENTINEL) == {} then RowsOf(s, task, user) else RowsOf(s, task, SENTINEL))
  {
    var s2 := DropRows(Repoint(s, scope, user), scope, user);
    forall a | a in RowsOf(s, task, user) ensures scope.Covers(s.assignments[a].org) {
      RepointedRow(s, scope, user, task, a);
    }
    forall a | a in RowsOf(s, task, user) || a in RowsOf(s, task, SENTINEL) || a in RowsOf(s2, task, SENTINEL)
      ensures a in RowsOf(s2, task, SENTINEL)
              <==> a in if RowsOf(s, task, SENTINEL) == {} then RowsOf(s, task, user) else RowsOf(s, task, SENTINEL)
    {
      if a in RowsOf(s, task, user) {
        RepointedRow(s, scope, user, task, a);
      } else if a in s.assignments {
        UntouchedRow(s, scope, user, a);
      }
    }
  }

  lemma SentinelTakesOver(s: State, scope: Scope, user: UserId, task: TaskId)
    requires Valid(s) && user != SENTINEL && task in s.tasks
    ensures var s2 := DropRows(Repoint(s, scope, user), scope, user);
            (exists a | a in ActiveRows(s2, scope, SENTINEL) :: s2.assignments[a].task == task)
            <==> scope.Covers(s.tasks[task].org) && RowsOf(s, task, SENTINEL) == {} && Holds(s, user, task)
  {
    var s2 := DropRows(Repoint(s, scope, user), scope, user);
    if scope.Covers(s.tasks[task].org) {
      RepointedRows(s, scope, user, task);
      forall a | a in RowsOf(s2, task, SENTINEL)
        ensures a in s.assignments && s2.assignments[a].status == s.assignments[a].status
                && scope.Covers(s2.assignments[a].org)
      {}
      assert forall a :: a in RowsOf(s2, task, SENTINEL) && s2.assignments[a].Active() ==>
          a in ActiveRows(s2, scope, SENTINEL);
      assert forall a :: a in ActiveRows(s2, scope, SENTINEL) && s2.assignments[a].task == task ==>
          a in RowsOf(s2, task, SENTINEL);
    }
  }

  lemma {:induction false} AtMostOneRow(s: State, task: TaskId, user: UserId)
    requires OneRowPerVolunteer(s)
    ensures RowsOf(s, task, user) != {} ==> |RowsOf(s, task, user)| == 1
  {
    if RowsOf(s, task, user) != {} {
      var a :| a in RowsOf(s, task, user);
      assert RowsOf(s, task, user) == {a};
    }
  }

  /** The user actively held the task and no earlier deleted account stands on it. */
  ghost predicate FreedByDeletion(s: State, scope: Scope, user: UserId, task: TaskId)
    requires task in s.tasks
  {
    scope.Covers(s.tasks[task].org) && RowsOf(s, task, SENTINEL) == {} && Holds(s, user, task)
  }

  lemma CancelKeepsRows(s: State, rows: set<AssignmentId>, task: TaskId, user: UserId)
    requires rows <= s.assignments.Keys
    ensures RowsOf(CancelRows(s, rows), task, user) == RowsOf(s, task, user)
  {}

  lemma DropUserRows(s: State, dropped: UserId, task: TaskId, user: UserId)
    ensures RowsOf(DropUser(s, dropped), task, user) == (if user == dropped then {} else RowsOf(s, task, user))
  {}

  lemma DeletionMovesRows(s: State, scope: Scope, user: UserId, task: TaskId)
    requires Valid(s) && user != SENTINEL && task in s.tasks && scope.Covers(s.tasks[task].org)
    ensures var s' := DropUser(ReassignTaskAssignments(s, scope, user), user);
            && RowsOf(s', task, user) == {}
            && RowsOf(s', task, SENTINEL)
               == (if RowsOf(s, task, SENTINEL) == {} then RowsOf(s, task, user) else RowsOf(s, task, SENTINEL))
  {
    var s2 := DropRows(Repoint(s, scope, user), scope, user);
    RepointedRows(s, scope, user, task);
    CancelKeepsRows(s2, ActiveRows(s2, scope, SENTINEL), task, SENTINEL);
    DropUserRows(CancelHeld(s2, scope, SENTINEL), user, task, user);
    DropUserRows(CancelHeld(s2, scope, SENTINEL), user, task, SENTINEL);
  }

  /** Deleting an account while in an organisation: on each task the session sees, which is
      every task for a platform admin, the sentinel takes the place of the user; every other
      volunteer's row is untouched. */
  lemma DeletionPreservesHistory(s: State, user: UserId)
    requires Valid(s) && user in s.users && s.users[user].org.Some? && DeleteAccount(s, user).Ok?
    ensures var s', scope := DeleteAccount(s, user).value, ScopeOf(s.users[user]);
            && (forall t :: t in s.tasks && scope.Covers(s.tasks[t].org) ==> RowsOf(s', t, user) == {})
            && (forall t :: t in s.tasks && scope.Covers(s.tasks[t].org)
                  && RowsOf(s, t, user) + RowsOf(s, t, SENTINEL) != {}
                  ==> |RowsOf(s', t, SENTINEL)| == 1)
            && (forall a :: a in s.assignments && s.assignments[a].volunteer != user
                  && s.assignments[a].volunteer != SENTINEL
                  ==> a in s'.assignments && s'.assignments[a] == s.assignments[a])
  {
    var scope := ScopeOf(s.users[user]);
    var s' := DropUser(ReassignTaskAssignments(s, scope, user), user);
    forall t | t in s.tasks && scope.Covers(s.tasks[t].org)
      ensures RowsOf(s', t, user) == {}
      ensures RowsOf(s, t, user) + RowsOf(s, t, SENTINEL) != {} ==> |RowsOf(s', t, SENTINEL)| == 1
    {
      DeletionMovesRows(s, scope, user, t);
      AtMostOneRow(s, t, user);
      AtMostOneRow(s, t, SENTINEL);
    }
    OthersKeepRows(s, scope, user);
  }

  /** Exactly the tasks in sight that the user held, with no earlier deleted account on them, are
      returned to pending; completed ones stay as they are. */
  lemma DeletionResets(s: State, user: UserId)
    requires Valid(s) && user in s.users && s.users[user].org.Some? && DeleteAccount(s, user).Ok?
    ensures var s', scope := DeleteAccount(s, user).value, ScopeOf(s.users[user]);
            && s'.tasks.Keys == s.tasks.Keys
            && forall t :: t in s.tasks ==>
                 s'.tasks[t] == (if FreedByDeletion(s, scope, user, t) then Reset(s.tasks[t]) else s.tasks[t])
  {
    var scope := ScopeOf(s.users[user]);
    forall t | t in s.tasks
      ensures var s2 := DropRows(Repoint(s, scope, user), scope, user);
              (exists a | a in ActiveRows(s2, scope, SENTINEL) :: s2.assignments[a].task == t)
              <==> FreedByDeletion(s, scope, user, t)
    {
      SentinelTakesOver(s, scope, user, t);
    }
  }

  lemma OthersKeepRows(s: State, scope: Scope, user: UserId)
    ensures var s' := DropUser(ReassignTaskAssignments(s, scope, user), user);
            forall a :: (a in s.assignments && s.assignments[a].volunteer != user
                         && s.assignments[a].volunteer != SENTINEL)
                  ==> a in s'.assignments && s'.assignments[a] == s.assignments[a]
  {}

  /** The cascade reaches what row-level security hid: the history of a task survives the
      account exactly when the user is in an organisation at that moment and the task is in it,
      or the user is a platform admin besides, or an earlier deleted account already stands on
      the task. */
  lemma HistorySurvivesIff(s: State, user: UserId, task: TaskId)
    requires Valid(s) && user in s.users && user != SENTINEL && DeleteAccount(s, user).Ok?
    requires task in s.tasks && RowsOf(s, task, user) != {}
    ensures RowsOf(DeleteAccount(s, user).value, task, SENTINEL) != {}
            <==> s.users[user].org == Some(s.tasks[task].org)
                 || (s.users[user].org.Some? && s.users[user].platformAdmin)
                 || RowsOf(s, task, SENTINEL) != {}
  {
    var s' := DeleteAccount(s, user).value;
    if s.users[user].org.None? {
      assert RowsOf(s', task, SENTINEL) == RowsOf(s, task, SENTINEL);
    } else if ScopeOf(s.users[user]).Covers(s.tasks[task].org) {
      DeletionPreservesHistory(s, user);
    } else {
      RowsElsewhere(s, ScopeOf(s.users[user]), user, task);
    }
  }

  lemma RowsElsewhere(s: State, scope: Scope, user: UserId, task: TaskId)
    requires Valid(s) && user != SENTINEL && task in s.tasks && !scope.Covers(s.tasks[task].org)
    ensures var s' := DropUser(ReassignTaskAssignments(s, scope, user), user);
            RowsOf(s', task, SENTINEL) == RowsOf(s, task, SENTINEL)
  {
    forall a | a in RowsOf(s, task, SENTINEL) ensures !scope.Covers(s.assignments[a].org) {}
  }

  /** A volunteer who has left organisation 1 and deletes the account: the completed task's
      only record of who did it is gone. */
  lemma HistoryLostExample()
    ensures var s := State(map[7 := Task(1, Completed, Some(3), Some(4), 1)],
                           map[9 := Assignment(1, 7, 5, Accepted)],
                           map[SENTINEL := User(None, Citizen, false, false), 5 := User(None, Citizen, true, false)]);
            Valid(s) && DeleteAccount(s, 5).Ok? && DeleteAccount(s, 5).value.assignments == map[]
  {}

  // ----- What each request does, field by field -----

  /** The volunteer has a row on the task, in the given status. */
  ghost predicate HasRow(s: State, task: TaskId, user: UserId, status: AssignmentStatus) {
    exists a :: a in s.assignments && s.assignments[a].task == task && s.assignments[a].volunteer == user
                && s.assignments[a].status == status
  }

  ghost predicate TaskOf(s: State, org: OrgId, task: TaskId) {
    task in s.tasks && s.tasks[task].org == org
  }

  lemma CreateOutcome(s: State, org: OrgId, task: TaskId, row: AssignmentId, volunteer: UserId)
    ensures var r := CreateTask(s, org, task, row, volunteer);
            && (r.Ok? <==> && volunteer in s.users && s.users[volunteer].org == Some(org)
                           && s.users[volunteer].role == Volunteer && s.users[volunteer].active
                           && task !in s.tasks && row !in s.assignments)
            && (r.Ok? ==> && r.value.tasks == s.tasks[task := Task(org, Pending, None, None, 0)]
                          && r.value.assignments == s.assignments[row := Assignment(org, task, volunteer, Assigned)]
                          && r.value.users == s.users)
  {}

  /** A reassignment succeeds exactly when the task is the organisation's, the volunteer is active in
      it, and the new key is free where the volunteer has no row to reuse. */
  lemma ReassignIff(s: State, org: OrgId, task: TaskId, volunteer: UserId, row: AssignmentId)
    requires Valid(s)
    ensures var r := Reassign(s, org, task, volunteer, row);
            var mayHold := volunteer in s.users && s.users[volunteer].org == Some(org)
                           && s.users[volunteer].role == Volunteer && s.users[volunteer].active;
            && (r == Err(TaskNotFound) <==> task !in s.tasks || s.tasks[task].org != org)
            && (r == Err(NotActiveVolunteer) <==> task in s.tasks && s.tasks[task].org == org && !mayHold)
            && (r.Ok? <==> && task in s.tasks && s.tasks[task].org == org && mayHold
                           && (row in s.assignments ==>
                                 exists a :: a in s.assignments && s.assignments[a].task == task
                                             && s.assignments[a].volunteer == volunteer))
  {
    var current := First(ActiveOn(s, task));
    var s1 := if current.Some? then SetStatus(s, current.value, Cancelled) else s;
    assert s1.assignments.Keys == s.assignments.Keys;
    assert forall a :: a in s.assignments && s.assignments[a].task == task && s.assignments[a].volunteer == volunteer
                       <==> a in RowsOf(s1, task, volunteer);
  }

  /** After a reassignment the volunteer named holds the task and nobody else does: either they held
      it before and nothing has changed, or their row is assigned, reused or new, and the row of a
      former holder is cancelled. Every other row, the tasks and the users stay. */
  lemma ReassignOutcome(s: State, org: OrgId, task: TaskId, volunteer: UserId, row: AssignmentId)
    returns (held: AssignmentId)
    requires Valid(s) && Reassign(s, org, task, volunteer, row).Ok?
    ensures var s' := Reassign(s, org, task, volunteer, row).value;
            && s'.tasks == s.tasks && s'.users == s.users
            && s'.assignments.Keys == s.assignments.Keys + {held} && (held !in s.assignments ==> held == row)
            && s'.assignments[held].org == org && s'.assignments[held].task == task
            && s'.assignments[held].volunteer == volunteer
            && (s' == s || s'.assignments[held].status == Assigned)
            && (forall a :: a in s'.assignments && s'.assignments[a].task == task ==>
                  (s'.assignments[a].status == Assigned || s'.assignments[a].status == Accepted <==> a == held))
            && (held in s.assignments ==>
                  s'.assignments[held] == s.assignments[held].(status := s'.assignments[held].status))
            && (forall a :: a in s.assignments && a != held ==>
                  s'.assignments[a] ==
                    if s.assignments[a].task == task
                       && (s.assignments[a].status == Assigned || s.assignments[a].status == Accepted)
                    then s.assignments[a].(status := Cancelled) else s.assignments[a])
  {
    var current := First(ActiveOn(s, task));
    if current.Some? && s.assignments[current.value].volunteer == volunteer {
      held := current.value;
      assert forall a :: a in s.assignments && s.assignments[a].task == task && s.assignments[a].Active() ==> a == held;
    } else {
      var s1 := if current.Some? then SetStatus(s, current.value, Cancelled) else s;
      HolderCancelled(s, task);
      var existing := First(RowsOf(s1, task, volunteer));
      held := if existing.Some? then existing.value else row;
    }
  }

  /** The first half of a reassignment: nobody holds the task any more. */
  lemma HolderCancelled(s: State, task: TaskId)
    requires Valid(s)
    ensures var current := First(ActiveOn(s, task));
            var s1 := if current.Some? then SetStatus(s, current.value, Cancelled) else s;
            && s1.assignments.Keys == s.assignments.Keys
            && forall a :: a in s.assignments ==>
                 && s1.assignments[a] == (if s.assignments[a].task == task && s.assignments[a].Active()
                                          then s.assignments[a].(status := Cancelled) else s.assignments[a])
                 && (s.assignments[a].task == task ==> !s1.assignments[a].Active())
  {
    assert forall a :: a in s.assignments && s.assignments[a].task == task && s.assignments[a].Active() ==>
        a in ActiveOn(s, task);
  }

  /** The answer to an assignment is recorded on the volunteer's row, as given, and nowhere else. */
  lemma RespondOutcome(s: State, org: OrgId, task: TaskId, volunteer: UserId, accept: bool)
    requires Valid(s)
    ensures var r := Respond(s, org, task, volunteer, accept);
            && (r.Ok? <==> TaskOf(s, org, task) && HasRow(s, task, volunteer, Assigned))
            && (r.Ok? ==>
                  && r.value.tasks == s.tasks && r.value.users == s.users
                  && r.value.assignments.Keys == s.assignments.Keys
                  && (accept ==> HasRow(r.value, task, volunteer, Accepted))
                  && (!accept ==> HasRow(r.value, task, volunteer, Declined))
                  && forall a :: a in s.assignments ==>
                       r.value.assignments[a] ==
                         if s.assignments[a].task != task || s.assignments[a].volunteer != volunteer
                         then s.assignments[a]
                         else Assignment(org, task, volunteer, if accept then Accepted else Declined))
  {
    OwnRowIsTheirs(s, org, task, volunteer);
    if Respond(s, org, task, volunteer, accept).Ok? {
      var row := OwnRow(s, org, task, volunteer).value;
      assert Respond(s, org, task, volunteer, accept).value.assignments[row].volunteer == volunteer;
    }
  }

  lemma OwnRowIsTheirs(s: State, org: OrgId, task: TaskId, volunteer: UserId)
    requires OneRowPerVolunteer(s)
    ensures var r := OwnRow(s, org, task, volunteer);
            && (r.Ok? ==>
                  forall a :: a in s.assignments && a != r.value ==>
                    s.assignments[a].task != task || s.assignments[a].volunteer != volunteer)
            && (r.Err? && TaskOf(s, org, task) ==>
                  forall a :: a in s.assignments ==>
                    s.assignments[a].task != task || s.assignments[a].volunteer != volunteer)
  {
    assert forall a :: a in s.assignments && s.assignments[a].task == task && s.assignments[a].volunteer == volunteer
                       ==> a in RowsOf(s, task, volunteer);
  }

  /** Starting, documenting and completing a task: each asks for an accepted row of the caller, and
      changes that task's own columns. */
  lemma StartOutcome(s: State, org: OrgId, task: TaskId, user: UserId, now: Time)
    requires Valid(s)
    ensures var r := MarkInProgress(s, org, task, user, now);
            && (r.Ok? <==> TaskOf(s, org, task) && HasRow(s, task, user, Accepted) && s.tasks[task].status == Pending)
            && (r.Ok? ==> && r.value.assignments == s.assignments && r.value.users == s.users
                          && r.value.tasks ==
                             s.tasks[task := Task(org, InProgress, Some(now), s.tasks[task].completedAt,
                                                  s.tasks[task].photos)])
  {
    OwnRowIsTheirs(s, org, task, user);
  }

  lemma PhotosOutcome(s: State, org: OrgId, task: TaskId, user: UserId, count: nat)
    requires Valid(s)
    ensures var r := AddPhotos(s, org, task, user, count);
            && (r.Ok? <==> TaskOf(s, org, task) && HasRow(s, task, user, Accepted) && count > 0)
            && (r.Ok? ==> && r.value.assignments == s.assignments && r.value.users == s.users
                          && r.value.tasks ==
                             s.tasks[task := Task(org, s.tasks[task].status, s.tasks[task].startedAt,
                                                  s.tasks[task].completedAt, s.tasks[task].photos + count)])
  {
    OwnRowIsTheirs(s, org, task, user);
  }

  lemma CompleteOutcome(s: State, org: OrgId, task: TaskId, user: UserId, now: Time)
    requires Valid(s)
    ensures var r := MarkCompleted(s, org, task, user, now);
            && (r.Ok? <==> && TaskOf(s, org, task) && HasRow(s, task, user, Accepted)
                           && s.tasks[task].status == InProgress && s.tasks[task].photos > 0)
            && (r.Ok? ==> && r.value.assignments == s.assignments && r.value.users == s.users
                          && r.value.tasks ==
                             s.tasks[task := Task(org, Completed, s.tasks[task].startedAt, Some(now),
                                                  s.tasks[task].photos)])
  {
    OwnRowIsTheirs(s, org, task, user);
  }

  /** A removal succeeds exactly for another account that is a volunteer of the organisation, and
      ends the membership: the account stays, belongs nowhere and is a citizen. */
  lemma RemovalEndsMembership(s: State, org: OrgId, user: UserId, acting: UserId)
    ensures var r := RemoveVolunteer(s, org, user, acting);
            && (r.Ok? <==> && user != acting && user in s.users && s.users[user].org == Some(org)
                           && s.users[user].role == Volunteer)
            && (r.Ok? ==>
                  && r.value.users.Keys == s.users.Keys
                  && r.value.users[user].org.None? && r.value.users[user].role == Citizen
                  && r.value.users[user].active == s.users[user].active
                  && r.value.users[user].platformAdmin == s.users[user].platformAdmin
                  && (forall u :: u in s.users && u != user ==> r.value.users[u] == s.users[u])
                  && !IsMember(r.value.users, org, user))
  {}

  /** Each active row of the volunteer in the organisation is cancelled and no other row changes;
      the tasks of those rows, unless completed, are pending and have no start any more. */
  lemma RemovalOutcome(s: State, org: OrgId, user: UserId, acting: UserId)
    requires RemoveVolunteer(s, org, user, acting).Ok?
    ensures var s' := RemoveVolunteer(s, org, user, acting).value;
            var ends := set a | a in s.assignments && s.assignments[a].org == org
                                && s.assignments[a].volunteer == user
                                && (s.assignments[a].status == Assigned || s.assignments[a].status == Accepted);
            && s'.assignments.Keys == s.assignments.Keys && s'.tasks.Keys == s.tasks.Keys
            && (forall a :: a in s.assignments ==>
                  s'.assignments[a] == if a in ends then Assignment(org, s.assignments[a].task, user, Cancelled)
                                       else s.assignments[a])
            && (forall a :: a in ends && s.assignments[a].task in s.tasks ==>
                  var t, t' := s.tasks[s.assignments[a].task], s'.tasks[s.assignments[a].task];
                  if t.status == Completed then t' == t else t' == t.(status := Pending, startedAt := None))
            && (forall t :: t in s.tasks && (forall a :: a in ends ==> s.assignments[a].task != t) ==>
                  s'.tasks[t] == s.tasks[t])
  {
    var rows := ActiveRows(s, Only(org), user);
    assert forall a :: a in rows <==>
        a in s.assignments && s.assignments[a].org == org && s.assignments[a].volunteer == user
        && (s.assignments[a].status == Assigned || s.assignments[a].status == Accepted);
  }

  /** Row by row: a row of the deleted account that its session sees goes to the sentinel, cancelled
      if it was active, unless the sentinel stands on the task; its other rows are gone. The rows of
      everybody else and the other accounts stay. */
  lemma DeletionOutcome(s: State, user: UserId)
    requires Valid(s) && user in s.users && DeleteAccount(s, user).Ok?
    ensures var s' := DeleteAccount(s, user).value;
            var u := s.users[user];
            && s'.users == s.users - {user}
            && s'.assignments.Keys <= s.assignments.Keys
            && (forall a :: a in s.assignments && s.assignments[a].volunteer != user ==>
                  a in s'.assignments && s'.assignments[a] == s.assignments[a])
            && (forall a :: a in s.assignments && s.assignments[a].volunteer == user ==>
                  var x := s.assignments[a];
                  var seen := u.org.Some? && (u.platformAdmin || u.org == Some(x.org));
                  var taken := exists b :: b in s.assignments && s.assignments[b].task == x.task
                                           && s.assignments[b].volunteer == SENTINEL;
                  && (a in s'.assignments <==> seen && !taken)
                  && (seen && !taken ==>
                        s'.assignments[a] ==
                          Assignment(x.org, x.task, SENTINEL,
                                     if x.status == Assigned || x.status == Accepted then Cancelled else x.status)))
  {
    if s.users[user].org.Some? {
      forall a | a in s.assignments
        ensures RowAfterDeletion(s, ScopeOf(s.users[user]), user, a)
      {
        DeletedRow(s, ScopeOf(s.users[user]), user, a);
      }
    }
  }

  /** What `DeletionOutcome` says of one row. */
  ghost predicate RowAfterDeletion(s: State, scope: Scope, user: UserId, a: AssignmentId)
    requires a in s.assignments
  {
    var s' := DropUser(ReassignTaskAssignments(s, scope, user), user);
    var x := s.assignments[a];
    if x.volunteer != user then a in s'.assignments && s'.assignments[a] == x
    else if scope.Covers(x.org) && RowsOf(s, x.task, SENTINEL) == {} then
      a in s'.assignments
      && s'.assignments[a] == x.(volunteer := SENTINEL, status := if x.Active() then Cancelled else x.status)
    else a !in s'.assignments
  }

  lemma DeletedRow(s: State, scope: Scope, user: UserId, a: AssignmentId)
    requires Valid(s) && user != SENTINEL && a in s.assignments
    ensures RowAfterDeletion(s, scope, user, a)
  {
    var x := s.assignments[a];
    var s2 := DropRows(Repoint(s, scope, user), scope, user);
    if x.volunteer == user && scope.Covers(x.org) {
      RepointedRow(s, scope, user, x.task, a);
    } else {
      UntouchedRow(s, scope, user, a);
    }
    if a in s2.assignments { CancelledRow(s2, scope, user, a); }
  }

  lemma CancelledRow(s: State, scope: Scope, user: UserId, a: AssignmentId)
    requires a in s.assignments && user != SENTINEL
    ensures var s', x := DropUser(CancelHeld(s, scope, SENTINEL), user), s.assignments[a];
            if x.volunteer == user then a !in s'.assignments
            else
              a in s'.assignments
              && s'.assignments[a] ==
                 if scope.Covers(x.org) && x.volunteer == SENTINEL && x.Active() then x.(status := Cancelled) else x
  {}

  /** Signing up and joining touch the accounts and no task or row. */
  lemma PeopleOutcome(s: State, user: UserId, org: OrgId, role: Role)
    ensures Apply(s, OpProvision(user)).Ok? <==> user !in s.users
    ensures user !in s.users ==>
              Apply(s, OpProvision(user)).value ==
              State(s.tasks, s.assignments, s.users[user := User(None, Citizen, true, false)])
    ensures Apply(s, OpMembership(user, org, role)).Ok? <==> user in s.users
    ensures user in s.users ==>
              Apply(s, OpMembership(user, org, role)).value ==
              State(s.tasks, s.assignments,
                    s.users[user := User(Some(org), role, s.users[user].active, s.users[user].platformAdmin)])
  {}

  // ----- The services, statement by statement -----

  lemma CancelNothing(s: State)
    ensures CancelRows(s, {}) == s
  {
    assert CancelRows(s, {}).tasks == s.tasks && CancelRows(s, {}).assignments == s.assignments;
  }

  lemma CancelOneMore(s: State, done: set<AssignmentId>, a: AssignmentId)
    requires done <= s.assignments.Keys && a in s.assignments
    ensures var s1, task := CancelRows(s, done), s.assignments[a].task;
            CancelRows(s, done + {a}) == s1.(
              assignments := s1.assignments[a := s1.assignments[a].(status := Cancelled)],
              tasks := if task in s1.tasks then s1.tasks[task := Reset(s1.tasks[task])] else s1.tasks)
  {
    var s1, s2 := CancelRows(s, done), CancelRows(s, done + {a});
    var task := s.assignments[a].task;
    assert s2.assignments == s1.assignments[a := s1.assignments[a].(status := Cancelled)];
    forall t | t in s.tasks && t != task ensures s2.tasks[t] == s1.tasks[t] {
      assert (exists b | b in done + {a} :: s.assignments[b].task == t) <==>
          (exists b | b in done :: s.assignments[b].task == t);
    }
    if task in s.tasks {
      assert a in done + {a} && s.assignments[a].task == task;
      assert s2.tasks[task] == Reset(s1.tasks[task]);
    }
    assert s2.tasks == if task in s1.tasks then s1.tasks[task := Reset(s1.tasks[task])] else s1.tasks;
  }

  class TaskTables {
    var tasks: map<TaskId, Task>
    var assignments: map<AssignmentId, Assignment>
    var users: Users

    ghost function Now(): State
      reads this
    {
      State(tasks, assignments, users)
    }

    constructor (users: Users)
      ensures Now() == State(map[], map[], users)
    {
      tasks, assignments, this.users := map[], map[], users;
    }

    method CreateTask(org: OrgId, task: TaskId, row: AssignmentId, volunteer: UserId) returns (error: Option<Error>)
      modifies this
      ensures error == ErrorOf(Apply(old(Now()), OpCreate(org, task, row, volunteer)))
      ensures Now() == Step(old(Now()), OpCreate(org, task, row, volunteer))
    {
      if !IsActiveVolunteer(users, org, volunteer) { return Some(NotActiveVolunteer); }
      if task in tasks || row in assignments { return Some(RowIdTaken); }
      tasks := tasks[task := Task(org, Pending, None, None, 0)];
      assignments := assignments[row := Assignment(org, task, volunteer, Assigned)];
      return None;
    }

    method Reassign(org: OrgId, task: TaskId, volunteer: UserId, row: AssignmentId) returns (error: Option<Error>)
      modifies this
      ensures error == ErrorOf(Apply(old(Now()), OpReassign(org, task, volunteer, row)))
      ensures Now() == Step(old(Now()), OpReassign(org, task, volunteer, row))
    {
      if task !in tasks || tasks[task].org != org { return Some(TaskNotFound); }
      if !IsActiveVolunteer(users, org, volunteer) { return Some(NotActiveVolunteer); }
      var before := assignments;
      var current := First(ActiveOn(State(tasks, assignments, users), task));
      if current.Some? {
        var row := assignments[current.value];
        if row.volunteer == volunteer { return None; }
        assignments := assignments[current.value := row.(status := Cancelled)];
      }
      var existing := First(RowsOf(State(tasks, assignments, users), task, volunteer));
      if existing.Some? {
        assignments := assignments[existing.value := assignments[existing.value].(status := Assigned)];
      } else if row in assignments {
        assignments := before;
        return Some(RowIdTaken);
      } else {
        assignments := assignments[row := Assignment(org, task, volunteer, Assigned)];
      }
      return None;
    }

    method RespondToAssignment(org: OrgId, task: TaskId, volunteer: UserId, accept: bool) returns (error: Option<Error>)
      modifies this
      ensures error == ErrorOf(Apply(old(Now()), OpRespond(org, task, volunteer, accept)))
      ensures Now() == Step(old(Now()), OpRespond(org, task, volunteer, accept))
    {
      var row := OwnRow(State(tasks, assignments, users), org, task, volunteer);
      if row.Err? { return Some(row.error); }
      var assignment := assignments[row.value];
      if assignment.status != Assigned { return Some(AlreadyResponded); }
      assignments := assignments[row.value := assignment.(status := if accept then Accepted else Declined)];
      return None;
    }

    method MarkInProgress(org: OrgId, task: TaskId, volunteer: UserId, now: Time) returns (error: Option<Error>)
      modifies this
      ensures error == ErrorOf(Apply(old(Now()), OpStart(org, task, volunteer, now)))
      ensures Now() == Step(old(Now()), OpStart(org, task, volunteer, now))
    {
      var t := AcceptedTask(State(tasks, assignments, users), org, task, volunteer);
      if t.Err? { return Some(t.error); }
      if t.value.status != Pending { return Some(NotPending); }
      tasks := tasks[task := tasks[task].(status := InProgress, startedAt := Some(now))];
      return None;
    }

    method AddPhotos(org: OrgId, task: TaskId, volunteer: UserId, count: nat) returns (error: Option<Error>)
      modifies this
      ensures error == ErrorOf(Apply(old(Now()), OpPhotos(org, task, volunteer, count)))
      ensures Now() == Step(old(Now()), OpPhotos(org, task, volunteer, count))
    {
      var t := AcceptedTask(State(tasks, assignments, users), org, task, volunteer);
      if t.Err? { return Some(t.error); }
      if count == 0 { return Some(NoPhotos); }
      tasks := tasks[task := tasks[task].(photos := tasks[task].photos + count)];
      return None;
    }

    method MarkCompleted(org: OrgId, task: TaskId, volunteer: UserId, now: Time) returns (error: Option<Error>)
      modifies this
      ensures error == ErrorOf(Apply(old(Now()), OpComplete(org, task, volunteer, now)))
      ensures Now() == Step(old(Now()), OpComplete(org, task, volunteer, now))
    {
      var t := AcceptedTask(State(tasks, assignments, users), org, task, volunteer);
      if t.Err? { return Some(t.error); }
      if t.value.status != InProgress { return Some(NotInProgress); }
      if t.value.photos == 0 { return Some(NoPhotos); }
      tasks := tasks[task := tasks[task].(status := Completed, completedAt := Some(now))];
      return None;
    }

    /** The loop of `removeVolunteer`, and of `reassignTaskAssignments` over the sentinel's rows:
        cancel one row, then reset its task unless it is completed. */
    method CancelEach(rows: set<AssignmentId>)
      requires rows <= assignments.Keys
      modifies `tasks, `assignments
      ensures Now() == CancelRows(old(Now()), rows)
    {
      var todo := rows;
      ghost var before := Now();
      CancelNothing(before);
      while todo != {}
        invariant todo <= rows <= assignments.Keys
        invariant rows - todo <= before.assignments.Keys
        invariant Now() == CancelRows(before, rows - todo)
        invariant users == old(users)
        decreases todo
      {
        var a :| a in todo;
        CancelOneMore(before, rows - todo, a);
        assert rows - (todo - {a}) == (rows - todo) + {a};
        var task := assignments[a].task;
        assignments := assignments[a := assignments[a].(status := Cancelled)];
        if task in tasks && tasks[task].status != Completed {
          tasks := tasks[task := tasks[task].(status := Pending, startedAt := None)];
        }
        todo := todo - {a};
      }
      assert rows - {} == rows;
    }

    method RemoveVolunteer(org: OrgId, user: UserId, acting: UserId) returns (error: Option<Error>)
      modifies this
      ensures error == ErrorOf(Apply(old(Now()), OpRemove(org, user, acting)))
      ensures Now() == Step(old(Now()), OpRemove(org, user, acting))
    {
      var refused := CheckRemoval(users, org, user, acting);
      if refused.Some? { return Some(Account(refused.value)); }
      CancelEach(ActiveRows(State(tasks, assignments, users), Only(org), user));
      users := Dismiss(users, user);
      return None;
    }

    method RepointToSentinel(scope: Scope, user: UserId)
      modifies `tasks, `assignments
      ensures Now() == ReassignTaskAssignments(old(Now()), scope, user)
    {
      assignments := Repoint(State(tasks, assignments, users), scope, user).assignments;
      assignments := DropRows(State(tasks, assignments, users), scope, user).assignments;
      CancelEach(ActiveRows(State(tasks, assignments, users), scope, SENTINEL));
    }

    method DeleteAccount(user: UserId) returns (error: Option<Error>)
      modifies this
      ensures error == ErrorOf(Apply(old(Now()), OpDelete(user)))
      ensures Now() == Step(old(Now()), OpDelete(user))
    {
      var refused := CheckDeletion(users, user);
      if refused.Some? { return Some(Account(refused.value)); }
      if user !in users { return None; }
      if users[user].org.Some? { RepointToSentinel(ScopeOf(users[user]), user); }
      assignments := map a | a in assignments && assignments[a].volunteer != user :: assignments[a];
      users := users - {user};
      return None;
    }
  }
}
