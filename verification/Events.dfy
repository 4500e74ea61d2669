/** Events, their RSVP rows and the stored counter, as changed by `EventsService`,
    `OrganisationMembersService.removeVolunteer` and `UsersService.deleteAccount`. Every request
    is one transaction; a run is a sequence of them. */
module Events {
  import opened Common
  import opened Accounts

  type EventId = nat

  datatype Status = Scheduled | Ongoing | Completed | Cancelled

  datatype Event = Event(org: OrgId, status: Status, maxAttendees: Option<nat>, rsvpCount: nat)

  /** The RSVP rows of each event, with their multiplicity: that PRIMARY KEY (event_id, user_id)
      is never hit is proved, not built in. */
  datatype State = State(events: map<EventId, Event>, rows: map<EventId, multiset<UserId>>, users: Users)

  datatype Error =
    | EventNotFound
    | Forbidden
    | Gone
    | AlreadyTakenPlace
    | AtCapacity
    | InvalidTransition
    | RowIdTaken
    | Account(error: AccountError)

  predicate Live(e: Event) {
    e.status == Scheduled || e.status == Ongoing
  }

  predicate ValidTransition(from: Status, to: Status) {
    match from
    case Scheduled => to == Ongoing || to == Cancelled
    case Ongoing => to == Completed || to == Cancelled
    case Completed => false
    case Cancelled => false
  }

  predicate Full(e: Event) {
    e.maxAttendees.Some? && e.rsvpCount >= e.maxAttendees.value
  }

  /** GREATEST(count - 1, 0). */
  function Less(count: nat): nat {
    if count == 0 then 0 else count - 1
  }

  // ----- One event under its row lock -----

  datatype Row = Row(event: Event, going: multiset<UserId>)

  function RsvpRow(r: Row, user: UserId): Result<Row, Error> {
    if r.event.status == Cancelled then Err(Gone)
    else if r.event.status == Completed then Err(AlreadyTakenPlace)
    else if user in r.going then Ok(r)
    else if Full(r.event) then Err(AtCapacity)
    else Ok(Row(r.event.(rsvpCount := r.event.rsvpCount + 1), r.going + multiset{user}))
  }

  function CancelRow(r: Row, user: UserId): Row {
    if user in r.going then Row(r.event.(rsvpCount := Less(r.event.rsvpCount)), Without(r.going, user)) else r
  }

  /** At most one row per user, no more rows than the counter says, and the counter within the
      cap. */
  ghost predicate Bounded(r: Row) {
    && (forall u :: u in r.going ==> r.going[u] == 1)
    && |r.going| <= r.event.rsvpCount
    && (r.event.maxAttendees.Some? ==> r.event.rsvpCount <= r.event.maxAttendees.value)
  }

  lemma RowSteps(r: Row, user: UserId)
    requires Bounded(r)
    ensures RsvpRow(r, user).Ok? ==> Bounded(RsvpRow(r, user).value)
    ensures Bounded(CancelRow(r, user))
    ensures |r.going| == r.event.rsvpCount ==>
              var c := CancelRow(r, user); |c.going| == c.event.rsvpCount
    ensures |r.going| == r.event.rsvpCount && RsvpRow(r, user).Ok? ==>
              var c := RsvpRow(r, user).value; |c.going| == c.event.rsvpCount
  {
    RemoveAll(r.going, user);
  }

  function Without(m: multiset<UserId>, user: UserId): (r: multiset<UserId>)
    ensures forall u :: r[u] == if u == user then 0 else m[u]
  {
    m[user := 0]
  }

  lemma RemoveAll(m: multiset<UserId>, user: UserId)
    ensures |Without(m, user)| == |m| - m[user]
  {
    assert m == Without(m, user) + multiset{}[user := m[user]];
    var only := multiset{}[user := m[user]];
    assert |only| == m[user];
  }

  // ----- Requests -----

  function RowAt(s: State, e: EventId): Row
    requires e in s.events
  {
    Row(s.events[e], if e in s.rows then s.rows[e] else multiset{})
  }

  function PutRow(s: State, e: EventId, r: Row): State {
    s.(events := s.events[e := r.event], rows := s.rows[e := r.going])
  }

  function CreateEvent(s: State, org: OrgId, e: EventId, maxAttendees: Option<nat>): Result<State, Error> {
    if e in s.events then Err(RowIdTaken)
    else Ok(PutRow(s, e, Row(Event(org, Scheduled, maxAttendees, 0), multiset{})))
  }

  predicate InOrg(s: State, org: OrgId, e: EventId) {
    e in s.events && s.events[e].org == org
  }

  /** TenantGuard and the volunteer role come first. */
  function Rsvp(s: State, org: OrgId, e: EventId, user: UserId): Result<State, Error> {
    if !MayEnter(s.users, org, user) || s.users[user].role != Volunteer then Err(Forbidden)
    else if !InOrg(s, org, e) then Err(EventNotFound)
    else
      match RsvpRow(RowAt(s, e), user)
      case Ok(r) => Ok(PutRow(s, e, r))
      case Err(error) => Err(error)
  }

  function CancelRsvp(s: State, org: OrgId, e: EventId, user: UserId): Result<State, Error> {
    if !MayEnter(s.users, org, user) || s.users[user].role != Volunteer then Err(Forbidden)
    else if !InOrg(s, org, e) then Err(EventNotFound)
    else Ok(PutRow(s, e, CancelRow(RowAt(s, e), user)))
  }

  function UpdateStatus(s: State, org: OrgId, e: EventId, status: Status): Result<State, Error> {
    if !InOrg(s, org, e) then Err(EventNotFound)
    else if !ValidTransition(s.events[e].status, status) then Err(InvalidTransition)
    else Ok(s.(events := s.events[e := s.events[e].(status := status)]))
  }

  /** One row of the withdrawal loops. Account deletion also deletes rows of finished events,
      whose counter it leaves alone; removal skips them. */
  function WithdrawRow(r: Row, user: UserId, finishedToo: bool): Row {
    if user !in r.going then r
    else if Live(r.event) then Row(r.event.(rsvpCount := Less(r.event.rsvpCount)), Without(r.going, user))
    else if finishedToo then r.(going := Without(r.going, user))
    else r
  }

  /** The user's rows in one organisation, all at once. */
  function Withdraw(s: State, org: OrgId, user: UserId, finishedToo: bool): State {
    s.(events := map e | e in s.events ::
         if s.events[e].org == org then WithdrawRow(RowAt(s, e), user, finishedToo).event else s.events[e],
       rows := map e | e in s.rows ::
         if InOrg(s, org, e) then WithdrawRow(RowAt(s, e), user, finishedToo).going else s.rows[e])
  }

  function RemoveVolunteer(s: State, org: OrgId, user: UserId, acting: UserId): Result<State, Error> {
    var refused := CheckRemoval(s.users, org, user, acting);
    if refused.Some? then Err(Account(refused.value))
    else Ok(Withdraw(s, org, user, false).(users := Dismiss(s.users, user)))
  }

  /** DELETE FROM users cascades to the rows left in every organisation; no counter follows. */
  function DropUser(s: State, user: UserId): State {
    s.(rows := map e | e in s.rows :: Without(s.rows[e], user), users := s.users - {user})
  }

  function DeleteAccount(s: State, user: UserId): Result<State, Error> {
    var refused := CheckDeletion(s.users, user);
    if refused.Some? then Err(Account(refused.value))
    else if user !in s.users then Ok(s)
    else if s.users[user].org.None? then Ok(DropUser(s, user))
    else Ok(DropUser(Withdraw(s, s.users[user].org.value, user, true), user))
  }

  function WithUsers(s: State, r: Result<Users, AccountError>): Result<State, Error> {
    match r
    case Ok(users) => Ok(s.(users := users))
    case Err(e) => Err(Account(e))
  }

  datatype Op =
    | OpCreate(org: OrgId, event: EventId, maxAttendees: Option<nat>)
    | OpRsvp(org: OrgId, event: EventId, user: UserId)
    | OpCancel(org: OrgId, event: EventId, user: UserId)
    | OpStatus(org: OrgId, event: EventId, status: Status)
    | OpRemove(org: OrgId, user: UserId, acting: UserId)
    | OpDelete(user: UserId)
    | OpProvision(user: UserId)
    | OpMembership(user: UserId, org: OrgId, role: Role)

  function Apply(s: State, op: Op): Result<State, Error> {
    match op
    case OpCreate(org, e, maxAttendees) => CreateEvent(s, org, e, maxAttendees)
    case OpRsvp(org, e, user) => Rsvp(s, org, e, user)
    case OpCancel(org, e, user) => CancelRsvp(s, org, e, user)
    case OpStatus(org, e, status) => UpdateStatus(s, org, e, status)
    case OpRemove(org, user, acting) => RemoveVolunteer(s, org, user, acting)
    case OpDelete(user) => DeleteAccount(s, user)
    case OpProvision(user) => WithUsers(s, Provision(s.users, user))
    case OpMembership(user, org, role) => WithUsers(s, SetMembership(s.users, user, org, role))
  }

  function Step(s: State, op: Op): State {
    Settle(s, Apply(s, op))
  }

  function Run(s: State, ops: seq<Op>): State
    decreases |ops|
  {
    if ops == [] then s else Run(Step(s, ops[0]), ops[1..])
  }

  // ----- The counter never falls below the rows -----

  ghost predicate Valid(s: State) {
    s.rows.Keys == s.events.Keys && forall e :: e in s.events ==> Bounded(RowAt(s, e))
  }

  lemma WithdrawBounded(r: Row, user: UserId, finishedToo: bool)
    requires Bounded(r)
    ensures Bounded(WithdrawRow(r, user, finishedToo))
  {
    RemoveAll(r.going, user);
  }

  lemma DropBounded(r: Row, user: UserId)
    requires Bounded(r)
    ensures Bounded(r.(going := Without(r.going, user)))
  {
    RemoveAll(r.going, user);
  }

  lemma WithdrawKeepsValid(s: State, org: OrgId, user: UserId, finishedToo: bool)
    requires Valid(s)
    ensures Valid(Withdraw(s, org, user, finishedToo))
  {
    forall e | e in s.events ensures Bounded(RowAt(Withdraw(s, org, user, finishedToo), e)) {
      WithdrawBounded(RowAt(s, e), user, finishedToo);
    }
  }

  lemma DropKeepsValid(s: State, user: UserId)
    requires Valid(s)
    ensures Valid(DropUser(s, user))
  {
    forall e | e in s.events ensures Bounded(RowAt(DropUser(s, user), e)) {
      DropBounded(RowAt(s, e), user);
    }
  }

  lemma PutRowKeepsValid(s: State, e: EventId, r: Row)
    requires Valid(s) && Bounded(r)
    ensures Valid(PutRow(s, e, r))
  {
    forall x | x in s.events && x != e ensures RowAt(PutRow(s, e, r), x) == RowAt(s, x) {}
  }

  lemma DeleteKeepsValid(s: State, user: UserId)
    requires Valid(s)
    ensures Valid(Step(s, OpDelete(user)))
  {
    if user in s.users && s.users[user].org.Some? {
      WithdrawKeepsValid(s, s.users[user].org.value, user, true);
      DropKeepsValid(Withdraw(s, s.users[user].org.value, user, true), user);
    } else {
      DropKeepsValid(s, user);
    }
  }

  lemma UsersDoNotMatter(s: State, users: Users)
    requires Valid(s)
    ensures Valid(s.(users := users))
  {
    forall e | e in s.events ensures RowAt(s.(users := users), e) == RowAt(s, e) {}
  }

  lemma StatusKeepsValid(s: State, e: EventId, status: Status)
    requires Valid(s) && e in s.events
    ensures Valid(s.(events := s.events[e := s.events[e].(status := status)]))
  {
    var r := RowAt(s, e);
    assert Bounded(r);
    PutRowKeepsValid(s, e, r.(event := r.event.(status := status)));
    assert s.rows[e := r.going] == s.rows;
  }

  lemma StepKeepsValid(s: State, op: Op)
    requires Valid(s)
    ensures Valid(Step(s, op))
  {
    if Apply(s, op).Ok? {
      match op {
        case OpCreate(org, e, maxAttendees) =>
          PutRowKeepsValid(s, e, Row(Event(org, Scheduled, maxAttendees, 0), multiset{}));
        case OpRsvp(org, e, user) =>
          RowSteps(RowAt(s, e), user);
          PutRowKeepsValid(s, e, RsvpRow(RowAt(s, e), user).value);
        case OpCancel(org, e, user) =>
          RowSteps(RowAt(s, e), user);
          PutRowKeepsValid(s, e, CancelRow(RowAt(s, e), user));
        case OpStatus(org, e, status) => StatusKeepsValid(s, e, status);
        case OpRemove(org, user, _) =>
          WithdrawKeepsValid(s, org, user, false);
          UsersDoNotMatter(Withdraw(s, org, user, false), Dismiss(s.users, user));
        case OpDelete(user) => DeleteKeepsValid(s, user);
        case OpProvision(_) => UsersDoNotMatter(s, Step(s, op).users);
        case OpMembership(_, _, _) => UsersDoNotMatter(s, Step(s, op).users);
      }
    }
  }

  /** Over every run, membership switches included: at most one row per user and event, and
      rows <= rsvpCount <= maxAttendees. */
  lemma {:induction false} RunKeepsValid(s: State, ops: seq<Op>)
    requires Valid(s)
    ensures Valid(Run(s, ops))
    decreases |ops|
  {
    if ops != [] {
      StepKeepsValid(s, ops[0]);
      RunKeepsValid(Step(s, ops[0]), ops[1..]);
    }
  }

  /** The same, spelled out for one event of any reachable state. */
  lemma CounterBoundsRows(s: State, ops: seq<Op>, e: EventId, user: UserId)
    requires Valid(s) && e in Run(s, ops).events
    ensures var r := RowAt(Run(s, ops), e);
            && r.going[user] <= 1
            && |r.going| <= r.event.rsvpCount
            && (r.event.maxAttendees.Some? ==> r.event.rsvpCount <= r.event.maxAttendees.value)
  {
    RunKeepsValid(s, ops);
    assert Bounded(RowAt(Run(s, ops), e));
  }

  // ----- Where every seat goes -----

  ghost predicate Exact(s: State) {
    forall e :: e in s.events && Live(s.events[e]) ==> |RowAt(s, e).going| == s.events[e].rsvpCount
  }

  /** Seats that the counter holds and no row accounts for. */
  function RowDrift(r: Row): int {
    r.event.rsvpCount - |r.going|
  }

  function Drift(s: State, e: EventId): int {
    if e in s.events then RowDrift(RowAt(s, e)) else 0
  }

  /** A deletion leaks a seat of a live event when the user holds one outside the own
      organisation: the cascade takes the row and no counter follows. */
  function Leaked(s: State, op: Op, e: EventId): nat {
    if op.OpDelete? && DeleteAccount(s, op.user).Ok? && op.user in s.users && e in s.events && Live(s.events[e])
       && op.user in RowAt(s, e).going && s.users[op.user].org != Some(s.events[e].org)
    then 1 else 0
  }

  function Leaks(s: State, ops: seq<Op>, e: EventId): nat
    decreases |ops|
  {
    if ops == [] then 0 else Leaked(s, ops[0], e) + Leaks(Step(s, ops[0]), ops[1..], e)
  }

  /** Every single-row change keeps the drift of a live event. */
  lemma RowKeepsDrift(r: Row, user: UserId, finishedToo: bool)
    requires Bounded(r)
    ensures RsvpRow(r, user).Ok? ==> RowDrift(RsvpRow(r, user).value) == RowDrift(r)
    ensures RowDrift(CancelRow(r, user)) == RowDrift(r)
    ensures Live(r.event) ==> RowDrift(WithdrawRow(r, user, finishedToo)) == RowDrift(r)
  {
    RemoveAll(r.going, user);
    if user in r.going { assert r.going[user] == 1; }
  }

  /** What deletion leaves of one event: the user's row is gone everywhere, but only a live
      event of the user's own organisation counts it off. */
  lemma DeletedRow(s: State, user: UserId, e: EventId)
    requires Valid(s) && user in s.users && DeleteAccount(s, user).Ok? && e in s.events
    ensures var s' := DeleteAccount(s, user).value;
            && e in s'.events && s'.events[e] == s.events[e].(rsvpCount := s'.events[e].rsvpCount)
            && RowAt(s', e).going == Without(RowAt(s, e).going, user)
            && s'.events[e].rsvpCount ==
                 if user in RowAt(s, e).going && Live(s.events[e]) && s.users[user].org == Some(s.events[e].org)
                 then s.events[e].rsvpCount - 1 else s.events[e].rsvpCount
  {
    assert Bounded(RowAt(s, e));
    RemoveAll(RowAt(s, e).going, user);
    if s.users[user].org.Some? {
      var w := Withdraw(s, s.users[user].org.value, user, true);
      assert e in w.events && e in w.rows;
      assert Without(Without(s.rows[e], user), user) == Without(s.rows[e], user);
    }
  }

  lemma DeletedDrift(s: State, user: UserId, e: EventId)
    requires Valid(s) && user in s.users && DeleteAccount(s, user).Ok? && e in s.events
    ensures var s' := DeleteAccount(s, user).value;
            && e in s'.events && s'.events[e].status == s.events[e].status
            && (Live(s.events[e]) ==> Drift(s', e) == Drift(s, e) + Leaked(s, OpDelete(user), e))
  {
    DeletedRow(s, user, e);
    RemoveAll(RowAt(s, e).going, user);
    assert Bounded(RowAt(s, e));
  }

  lemma PutRowDrift(s: State, e: EventId, r: Row, x: EventId)
    ensures Drift(PutRow(s, e, r), x) == (if x == e then RowDrift(r) else Drift(s, x))
  {
    if x != e && x in s.events { assert RowAt(PutRow(s, e, r), x) == RowAt(s, x); }
  }

  lemma WithdrawnDrift(s: State, org: OrgId, user: UserId, finishedToo: bool, e: EventId)
    requires Valid(s) && e in s.events && Live(s.events[e])
    ensures Drift(Withdraw(s, org, user, finishedToo), e) == Drift(s, e)
  {
    RowKeepsDrift(RowAt(s, e), user, finishedToo);
  }

  lemma RsvpDrift(s: State, op: Op, e: EventId)
    requires Valid(s) && (op.OpRsvp? || op.OpCancel?) && Apply(s, op).Ok?
    ensures Drift(Step(s, op), e) == Drift(s, e)
    ensures e in Step(s, op).events <==> e in s.events
    ensures e in s.events ==> Step(s, op).events[e].status == s.events[e].status
  {
    var r := RowAt(s, op.event);
    RowKeepsDrift(r, op.user, false);
    PutRowDrift(s, op.event, if op.OpRsvp? then RsvpRow(r, op.user).value else CancelRow(r, op.user), e);
  }

  lemma StatusDrift(s: State, org: OrgId, at: EventId, status: Status, e: EventId)
    requires Valid(s) && UpdateStatus(s, org, at, status).Ok?
    ensures var s' := UpdateStatus(s, org, at, status).value;
            && Drift(s', e) == Drift(s, e)
            && (e in s'.events <==> e in s.events)
            && (e in s.events && Live(s'.events[e]) ==> Live(s.events[e]))
  {}

  lemma CreateDrift(s: State, org: OrgId, at: EventId, maxAttendees: Option<nat>, e: EventId)
    requires CreateEvent(s, org, at, maxAttendees).Ok?
    ensures var s' := CreateEvent(s, org, at, maxAttendees).value;
            Drift(s', e) == Drift(s, e) && (e in s.events ==> e in s'.events && s'.events[e] == s.events[e])
  {
    PutRowDrift(s, at, Row(Event(org, Scheduled, maxAttendees, 0), multiset{}), e);
  }

  lemma RemovalDrift(s: State, org: OrgId, user: UserId, acting: UserId, e: EventId)
    requires Valid(s) && RemoveVolunteer(s, org, user, acting).Ok?
    ensures var s' := RemoveVolunteer(s, org, user, acting).value;
            && (e in s'.events <==> e in s.events)
            && (e in s.events ==> s'.events[e].status == s.events[e].status)
            && (e in s.events && Live(s.events[e]) ==> Drift(s', e) == Drift(s, e))
  {
    if e in s.events && Live(s.events[e]) {
      WithdrawnDrift(s, org, user, false, e);
      UsersDrift(Withdraw(s, org, user, false), Dismiss(s.users, user), e);
    }
  }

  lemma UsersDrift(s: State, users: Users, e: EventId)
    ensures Drift(s.(users := users), e) == Drift(s, e)
  {
    if e in s.events { assert RowAt(s.(users := users), e) == RowAt(s, e); }
  }

  /** One step seen from one event: the event stays, a finished one does not come back to life,
      and its drift grows by the leak. */
  ghost predicate DriftStep(s: State, s': State, leaked: nat, e: EventId) {
    && (e in s.events ==> e in s'.events)
    && (e in s.events && Live(s'.events[e]) ==> Live(s.events[e]))
    && (e in s'.events && Live(s'.events[e]) ==> Drift(s', e) == Drift(s, e) + leaked)
  }

  lemma DeleteStepDrift(s: State, user: UserId, e: EventId)
    requires Valid(s) && DeleteAccount(s, user).Ok?
    ensures DriftStep(s, DeleteAccount(s, user).value, Leaked(s, OpDelete(user), e), e)
  {
    DeletionKeepsEvents(s, user);
    if user in s.users && e in s.events { DeletedDrift(s, user, e); }
  }

  /** Nothing but an account deletion moves the drift of an event that stays live. */
  lemma StepDrift(s: State, op: Op, e: EventId)
    requires Valid(s)
    ensures DriftStep(s, Step(s, op), Leaked(s, op, e), e)
  {
    if Apply(s, op).Ok? {
      match op {
        case OpCreate(org, at, maxAttendees) => CreateDrift(s, org, at, maxAttendees, e);
        case OpRsvp(_, _, _) => RsvpDrift(s, op, e);
        case OpCancel(_, _, _) => RsvpDrift(s, op, e);
        case OpStatus(org, at, status) => StatusDrift(s, org, at, status, e);
        case OpRemove(org, user, acting) => RemovalDrift(s, org, user, acting, e);
        case OpDelete(user) => DeleteStepDrift(s, user, e);
        case OpProvision(_) => UsersDrift(s, Step(s, op).users, e);
        case OpMembership(_, _, _) => UsersDrift(s, Step(s, op).users, e);
      }
    }
  }

  lemma {:induction false} LiveBefore(s: State, ops: seq<Op>, e: EventId)
    requires Valid(s) && e in s.events
    ensures e in Run(s, ops).events && (Live(Run(s, ops).events[e]) ==> Live(s.events[e]))
    decreases |ops|
  {
    if ops != [] {
      StepDrift(s, ops[0], e);
      StepKeepsValid(s, ops[0]);
      LiveBefore(Step(s, ops[0]), ops[1..], e);
    }
  }

  /** Conservation of seats: over every run of the three services, whoever joins, leaves or is
      moved, the counter of a live event is its rows, plus what it was ahead by at the start,
      plus one for each account that was deleted while it held a seat there outside its own
      organisation. */
  lemma {:induction false} SeatsAreAccountedFor(s: State, ops: seq<Op>, e: EventId)
    requires Valid(s) && e in Run(s, ops).events && Live(Run(s, ops).events[e])
    ensures Run(s, ops).events[e].rsvpCount == |RowAt(Run(s, ops), e).going| + Drift(s, e) + Leaks(s, ops, e)
    decreases |ops|
  {
    if ops != [] {
      var s1 := Step(s, ops[0]);
      StepDrift(s, ops[0], e);
      StepKeepsValid(s, ops[0]);
      SeatsAreAccountedFor(s1, ops[1..], e);
      if e in s1.events { LiveBefore(s1, ops[1..], e); }
    }
  }

  /** So the counters of live events end exact if and only if no such deletion took place. */
  lemma RunExactIff(s: State, ops: seq<Op>)
    requires Valid(s) && Exact(s)
    ensures Exact(Run(s, ops)) <==>
            forall e :: e in Run(s, ops).events && Live(Run(s, ops).events[e]) ==> Leaks(s, ops, e) == 0
  {
    forall e | e in Run(s, ops).events && Live(Run(s, ops).events[e])
      ensures Run(s, ops).events[e].rsvpCount == |RowAt(Run(s, ops), e).going| + Leaks(s, ops, e)
    {
      SeatsAreAccountedFor(s, ops, e);
      if e in s.events { LiveBefore(s, ops, e); }
    }
  }

  lemma DeletionKeepsEvents(s: State, user: UserId)
    requires DeleteAccount(s, user).Ok?
    ensures DeleteAccount(s, user).value.events.Keys == s.events.Keys
  {}

  lemma DeletedExactIff(s: State, user: UserId, e: EventId)
    requires Valid(s) && user in s.users && DeleteAccount(s, user).Ok? && e in s.events
    requires Live(s.events[e]) ==> |RowAt(s, e).going| == s.events[e].rsvpCount
    ensures var s' := DeleteAccount(s, user).value;
            && e in s'.events && (Live(s'.events[e]) <==> Live(s.events[e]))
            && (Live(s.events[e]) ==>
                  (|RowAt(s', e).going| == s'.events[e].rsvpCount
                   <==> (user in RowAt(s, e).going ==> s.users[user].org == Some(s.events[e].org))))
  {
    DeletedDrift(s, user, e);
  }

  /** Account deletion keeps the counters of live events exact exactly when the user has no
      RSVP to a live event of another organisation. */
  lemma DeletionExactIff(s: State, user: UserId)
    requires Valid(s) && Exact(s) && user in s.users && DeleteAccount(s, user).Ok?
    ensures Exact(DeleteAccount(s, user).value) <==>
            forall e :: e in s.events && Live(s.events[e]) && user in RowAt(s, e).going
                        ==> s.users[user].org == Some(s.events[e].org)
  {
    var s' := DeleteAccount(s, user).value;
    DeletionKeepsEvents(s, user);
    forall e | e in s.events
      ensures e in s'.events && (Live(s'.events[e]) <==> Live(s.events[e]))
      ensures Live(s.events[e]) ==>
                (|RowAt(s', e).going| == s'.events[e].rsvpCount
                 <==> (user in RowAt(s, e).going ==> s.users[user].org == Some(s.events[e].org)))
    {
      DeletedExactIff(s, user, e);
    }
  }

  // ----- A run that cannot leak -----

  ghost predicate MembersAt(s: State, e: EventId)
    requires e in s.events
  {
    Live(s.events[e]) ==> forall u :: u in RowAt(s, e).going ==> IsMember(s.users, s.events[e].org, u)
  }

  /** Whoever has RSVPed to a live event is still a member of its organisation. */
  ghost predicate LiveRowsAreMembers(s: State) {
    forall e :: e in s.events ==> MembersAt(s, e)
  }

  /** No user is moved straight from one organisation to another, and nobody RSVPs outside the
      own organisation (only a platform admin could). */
  predicate Stays(s: State, op: Op) {
    && (op.OpMembership? && op.user in s.users ==> s.users[op.user].org == None || s.users[op.user].org == Some(op.org))
    && (op.OpRsvp? ==> IsMember(s.users, op.org, op.user))
  }

  predicate NobodySwitches(s: State, ops: seq<Op>)
    decreases |ops|
  {
    ops == [] || (Stays(s, ops[0]) && NobodySwitches(Step(s, ops[0]), ops[1..]))
  }

  lemma PutRowKeepsMembers(s: State, e: EventId, r: Row)
    requires LiveRowsAreMembers(s)
    requires Live(r.event) ==> forall u :: u in r.going ==> IsMember(s.users, r.event.org, u)
    ensures LiveRowsAreMembers(PutRow(s, e, r))
  {
    var s' := PutRow(s, e, r);
    forall x | x in s'.events ensures MembersAt(s', x) {
      if x != e { assert MembersAt(s, x) && RowAt(s', x) == RowAt(s, x); }
    }
  }

  lemma UsersKeepMembers(s: State, users: Users)
    requires LiveRowsAreMembers(s)
    requires forall u, org :: IsMember(s.users, org, u) ==> IsMember(users, org, u)
    ensures LiveRowsAreMembers(s.(users := users))
  {
    var s' := s.(users := users);
    forall e | e in s'.events ensures MembersAt(s', e) { assert MembersAt(s, e) && RowAt(s', e) == RowAt(s, e); }
  }

  lemma WithdrawnGoing(s: State, org: OrgId, user: UserId, e: EventId)
    requires Valid(s) && e in s.events && Live(s.events[e])
    ensures var r' := RowAt(Withdraw(s, org, user, false), e);
            && r'.event == s.events[e].(rsvpCount := r'.event.rsvpCount)
            && (forall u :: u in r'.going ==> u in RowAt(s, e).going)
            && (s.events[e].org == org ==> user !in r'.going)
  {}

  lemma WithdrawnStatus(s: State, org: OrgId, user: UserId, e: EventId)
    requires e in s.events
    ensures var s' := Withdraw(s, org, user, false); e in s'.events && s'.events[e].status == s.events[e].status
  {}

  lemma WithdrawnMembers(s: State, org: OrgId, user: UserId, acting: UserId, e: EventId)
    requires Valid(s) && RemoveVolunteer(s, org, user, acting).Ok? && e in s.events && MembersAt(s, e)
    ensures MembersAt(RemoveVolunteer(s, org, user, acting).value, e)
  {
    var w := Withdraw(s, org, user, false);
    var s' := RemoveVolunteer(s, org, user, acting).value;
    assert s' == w.(users := Dismiss(s.users, user));
    assert RowAt(s', e) == RowAt(w, e);
    WithdrawnStatus(s, org, user, e);
    if Live(s.events[e]) { WithdrawnGoing(s, org, user, e); }
  }

  lemma DeletedMembers(s: State, user: UserId, e: EventId)
    requires Valid(s) && user in s.users && DeleteAccount(s, user).Ok? && e in s.events && MembersAt(s, e)
    ensures e in DeleteAccount(s, user).value.events && MembersAt(DeleteAccount(s, user).value, e)
  {
    DeletedRow(s, user, e);
    var s' := DeleteAccount(s, user).value;
    forall u | Live(s'.events[e]) && u in RowAt(s', e).going ensures IsMember(s'.users, s'.events[e].org, u) {
      assert u in RowAt(s, e).going && u != user;
    }
  }

  lemma StatusKeepsMembers(s: State, org: OrgId, e: EventId, status: Status)
    requires Valid(s) && LiveRowsAreMembers(s) && UpdateStatus(s, org, e, status).Ok?
    ensures LiveRowsAreMembers(UpdateStatus(s, org, e, status).value)
  {
    var s' := UpdateStatus(s, org, e, status).value;
    forall x | x in s'.events ensures MembersAt(s', x) {
      assert MembersAt(s, x) && RowAt(s', x).going == RowAt(s, x).going;
    }
  }

  lemma RsvpKeepsMembers(s: State, org: OrgId, e: EventId, user: UserId)
    requires LiveRowsAreMembers(s) && IsMember(s.users, org, user) && Rsvp(s, org, e, user).Ok?
    ensures LiveRowsAreMembers(Rsvp(s, org, e, user).value)
  {
    assert MembersAt(s, e);
    PutRowKeepsMembers(s, e, RsvpRow(RowAt(s, e), user).value);
  }

  lemma CancelKeepsMembers(s: State, org: OrgId, e: EventId, user: UserId)
    requires LiveRowsAreMembers(s) && CancelRsvp(s, org, e, user).Ok?
    ensures LiveRowsAreMembers(CancelRsvp(s, org, e, user).value)
  {
    assert MembersAt(s, e);
    PutRowKeepsMembers(s, e, CancelRow(RowAt(s, e), user));
  }

  lemma RemovalKeepsMembers(s: State, org: OrgId, user: UserId, acting: UserId)
    requires Valid(s) && LiveRowsAreMembers(s) && RemoveVolunteer(s, org, user, acting).Ok?
    ensures LiveRowsAreMembers(RemoveVolunteer(s, org, user, acting).value)
  {
    forall e | e in s.events ensures MembersAt(RemoveVolunteer(s, org, user, acting).value, e) {
      WithdrawnMembers(s, org, user, acting, e);
    }
  }

  lemma DeletionKeepsMembers(s: State, user: UserId)
    requires Valid(s) && LiveRowsAreMembers(s) && user in s.users && DeleteAccount(s, user).Ok?
    ensures LiveRowsAreMembers(DeleteAccount(s, user).value)
  {
    var s' := DeleteAccount(s, user).value;
    forall e | e in s'.events ensures MembersAt(s', e) {
      assert e in s.events;
      DeletedMembers(s, user, e);
    }
  }

  lemma StepKeepsMembers(s: State, op: Op)
    requires Valid(s) && LiveRowsAreMembers(s) && Stays(s, op)
    ensures LiveRowsAreMembers(Step(s, op))
  {
    if Apply(s, op).Ok? {
      match op {
        case OpCreate(org, e, maxAttendees) =>
          PutRowKeepsMembers(s, e, Row(Event(org, Scheduled, maxAttendees, 0), multiset{}));
        case OpRsvp(org, e, user) => RsvpKeepsMembers(s, org, e, user);
        case OpCancel(org, e, user) => CancelKeepsMembers(s, org, e, user);
        case OpStatus(org, e, status) => StatusKeepsMembers(s, org, e, status);
        case OpRemove(org, user, acting) => RemovalKeepsMembers(s, org, user, acting);
        case OpDelete(user) => if user in s.users { DeletionKeepsMembers(s, user); }
        case OpProvision(_) => UsersKeepMembers(s, Step(s, op).users);
        case OpMembership(_, _, _) => UsersKeepMembers(s, Step(s, op).users);
      }
    }
  }

  lemma MembersDoNotLeak(s: State, op: Op, e: EventId)
    requires LiveRowsAreMembers(s)
    ensures Leaked(s, op, e) == 0
  {
    if e in s.events { assert MembersAt(s, e); }
  }

  lemma {:induction false} RunKeepsMembers(s: State, ops: seq<Op>, e: EventId)
    requires Valid(s) && LiveRowsAreMembers(s) && NobodySwitches(s, ops)
    ensures LiveRowsAreMembers(Run(s, ops)) && Leaks(s, ops, e) == 0
    decreases |ops|
  {
    if ops != [] {
      MembersDoNotLeak(s, ops[0], e);
      StepKeepsMembers(s, ops[0]);
      StepKeepsValid(s, ops[0]);
      RunKeepsMembers(Step(s, ops[0]), ops[1..], e);
    }
  }

  /** In particular: while users leave an organisation only through removal or deletion and RSVP
      only in their own, the counter of every scheduled or ongoing event is the number of its
      rows, and each of them belongs to a current member of the event's organisation. */
  lemma RunKeepsExact(s: State, ops: seq<Op>)
    requires Valid(s) && Exact(s) && LiveRowsAreMembers(s) && NobodySwitches(s, ops)
    ensures Exact(Run(s, ops)) && LiveRowsAreMembers(Run(s, ops))
  {
    RunExactIff(s, ops);
    forall e ensures LiveRowsAreMembers(Run(s, ops)) && Leaks(s, ops, e) == 0 { RunKeepsMembers(s, ops, e); }
  }

  /** Removal gives back exactly the seats the volunteer held on live events of the
      organisation, and touches no one else's row and no finished event. */
  lemma RemovalFreesSeats(s: State, org: OrgId, user: UserId, acting: UserId, e: EventId)
    requires Valid(s) && RemoveVolunteer(s, org, user, acting).Ok? && e in s.events
    ensures var r, r' := RowAt(s, e), RowAt(RemoveVolunteer(s, org, user, acting).value, e);
            var held := InOrg(s, org, e) && Live(r.event) && user in r.going;
            && r'.event == r.event.(rsvpCount := if held then r.event.rsvpCount - 1 else r.event.rsvpCount)
            && (forall u :: r'.going[u] == if held && u == user then 0 else r.going[u])
  {
    assert Bounded(RowAt(s, e));
    if user in RowAt(s, e).going {
      assert multiset{user} <= RowAt(s, e).going;
    }
  }

  /** One live event with one seat, taken by a volunteer whose account is in `org`. */
  function OneSeat(org: OrgId, platformAdmin: bool): State {
    State(map[9 := Event(1, Scheduled, Some(1), 1)], map[9 := multiset{5}],
        map[5 := User(Some(org), Volunteer, true, platformAdmin)])
  }

  /** Why switches are excluded: a volunteer RSVPs and is then moved to another organisation by an
      email invitation. */
  lemma SwitchedAway()
    ensures var s := State(map[], map[], map[5 := User(None, Citizen, true, false)]);
            Run(s, [OpMembership(5, 1, Volunteer), OpCreate(1, 9, Some(1)), OpRsvp(1, 9, 5),
                OpMembership(5, 2, Volunteer)])
              == OneSeat(2, false)
  {
    var s := State(map[], map[], map[5 := User(None, Citizen, true, false)]);
    var s1 := State(map[], map[], map[5 := User(Some(1), Volunteer, true, false)]);
    var s2 := State(map[9 := Event(1, Scheduled, Some(1), 0)], map[9 := multiset{}], s1.users);
    assert Step(s, OpMembership(5, 1, Volunteer)) == s1;
    assert Step(s1, OpCreate(1, 9, Some(1))) == s2;
    TakeTheSeat(s2, 1);
    assert Step(OneSeat(1, false), OpMembership(5, 2, Volunteer)) == OneSeat(2, false);
    RunOne(s, OpMembership(5, 1, Volunteer), [OpCreate(1, 9, Some(1)), OpRsvp(1, 9, 5), OpMembership(5, 2, Volunteer)]);
    RunOne(s1, OpCreate(1, 9, Some(1)), [OpRsvp(1, 9, 5), OpMembership(5, 2, Volunteer)]);
    RunOne(s2, OpRsvp(1, 9, 5), [OpMembership(5, 2, Volunteer)]);
    RunOne(OneSeat(1, false), OpMembership(5, 2, Volunteer), []);
  }

  lemma RunOne(s: State, op: Op, ops: seq<Op>)
    ensures Run(s, [op] + ops) == Run(Step(s, op), ops)
  {
    assert ([op] + ops)[1..] == ops;
  }

  lemma TakeTheSeat(s: State, org: OrgId)
    requires s.events == map[9 := Event(1, Scheduled, Some(1), 0)] && s.rows == map[9 := multiset{}]
    requires 5 in s.users && s.users[5].role == Volunteer && MayEnter(s.users, 1, 5)
    ensures Step(s, OpRsvp(1, 9, 5))
         == s.(events := map[9 := Event(1, Scheduled, Some(1), 1)], rows := map[9 := multiset{5}])
  {
    var empty: multiset<UserId> := multiset{};
    assert empty + multiset{5} == multiset{5};
  }

  function FreeSeat(org: OrgId, platformAdmin: bool): State {
    OneSeat(org, platformAdmin).(events := map[9 := Event(1, Scheduled, Some(1), 0)], rows := map[9 := multiset{}])
  }

  /** Or a platform admin of organisation 2 RSVPs there without being a member. */
  lemma RsvpAsPlatformAdmin()
    ensures Step(FreeSeat(2, true), OpRsvp(1, 9, 5)) == OneSeat(2, true)
  {
    TakeTheSeat(FreeSeat(2, true), 1);
  }

  lemma OneSeatIsExact(org: OrgId, platformAdmin: bool)
    ensures Valid(OneSeat(org, platformAdmin)) && Exact(OneSeat(org, platformAdmin))
  {
    var s := OneSeat(org, platformAdmin);
    assert s.events.Keys == {9} && s.rows.Keys == {9};
    assert RowAt(s, 9) == Row(Event(1, Scheduled, Some(1), 1), multiset{5});
    assert Bounded(RowAt(s, 9));
  }

  lemma LeakedSeat(s: State, user: UserId, e: EventId)
    requires Valid(s) && user in s.users && DeleteAccount(s, user).Ok? && e in s.events
    requires user in RowAt(s, e).going && s.users[user].org != Some(s.events[e].org)
    ensures var s' := DeleteAccount(s, user).value;
            && e in s'.events && s'.events[e] == s.events[e]
            && RowAt(s', e).going == Without(RowAt(s, e).going, user)
  {
    DeletedRow(s, user, e);
  }

  lemma OneSeatDeletes(org: OrgId, platformAdmin: bool)
    ensures DeleteAccount(OneSeat(org, platformAdmin), 5).Ok?
  {
    assert CheckDeletion(OneSeat(org, platformAdmin).users, 5).None?;
  }

  /** In both cases deleting the account leaves the seat taken by nobody. */
  lemma SwitchLeaksSeat(platformAdmin: bool)
    ensures var s := OneSeat(2, platformAdmin);
            && Valid(s) && Exact(s) && DeleteAccount(s, 5).Ok?
            && var s' := DeleteAccount(s, 5).value;
               9 in s'.events && Live(s'.events[9]) && s'.events[9].rsvpCount == 1 && RowAt(s', 9).going == multiset{}
  {
    OneSeatIsExact(2, platformAdmin);
    OneSeatDeletes(2, platformAdmin);
    LeakedSeat(OneSeat(2, platformAdmin), 5, 9);
    assert Without(multiset{5}, 5) == multiset{};
  }

  // ----- What each request does, field by field -----

  /** A volunteer of the organisation, or of any other with the platform-admin flag. */
  predicate MayAsk(s: State, org: OrgId, user: UserId) {
    user in s.users && s.users[user].role == Volunteer
    && (s.users[user].org == Some(org) || s.users[user].platformAdmin)
  }

  /** One event and its rows have changed, and nothing else. */
  ghost predicate OnlyEvent(s: State, s': State, e: EventId) {
    && s'.users == s.users && s'.events.Keys == s.events.Keys + {e} && s'.rows.Keys == s.rows.Keys + {e}
    && (forall x :: x in s.events && x != e ==> s'.events[x] == s.events[x])
    && (forall x :: x in s.rows && x != e ==> s'.rows[x] == s.rows[x])
  }

  lemma CreateOutcome(s: State, org: OrgId, e: EventId, maxAttendees: Option<nat>)
    ensures var r := CreateEvent(s, org, e, maxAttendees);
            && (r.Ok? <==> e !in s.events)
            && (r.Ok? ==> && OnlyEvent(s, r.value, e)
                          && r.value.events[e] == Event(org, Scheduled, maxAttendees, 0)
                          && r.value.rows[e] == multiset{})
  {}

  /** Which RSVP is refused, and why. */
  lemma RsvpRefusals(s: State, org: OrgId, e: EventId, user: UserId)
    requires Valid(s)
    ensures Rsvp(s, org, e, user) == Err(Forbidden) <==> !MayAsk(s, org, user)
    ensures Rsvp(s, org, e, user) == Err(EventNotFound)
            <==> MayAsk(s, org, user) && (e in s.events ==> s.events[e].org != org)
    ensures MayAsk(s, org, user) && e in s.events && s.events[e].org == org ==>
              var r, x, going := Rsvp(s, org, e, user), s.events[e], s.rows[e];
              && (r == Err(Gone) <==> x.status == Cancelled)
              && (r == Err(AlreadyTakenPlace) <==> x.status == Completed)
              && (r == Err(AtCapacity) <==> && (x.status == Scheduled || x.status == Ongoing) && user !in going
                                            && x.maxAttendees.Some? && x.rsvpCount >= x.maxAttendees.value)
              && (r.Ok? <==> && (x.status == Scheduled || x.status == Ongoing)
                             && (user in going || (x.maxAttendees.Some? ==> x.rsvpCount < x.maxAttendees.value)))
  {}

  /** An RSVP that is accepted leaves the user with exactly one row, and counts it if it is new. */
  lemma RsvpOutcome(s: State, org: OrgId, e: EventId, user: UserId)
    requires Valid(s) && Rsvp(s, org, e, user).Ok?
    ensures e in s.events
    ensures var s' := Rsvp(s, org, e, user).value;
            && OnlyEvent(s, s', e)
            && (forall u :: s'.rows[e][u] == if u == user then 1 else s.rows[e][u])
            && s'.events[e] ==
               s.events[e].(rsvpCount := s.events[e].rsvpCount + if user in s.rows[e] then 0 else 1)
  {
    assert Bounded(RowAt(s, e));
    RsvpRowOutcome(RowAt(s, e), user);
    PutRowOutcome(s, e, RsvpRow(RowAt(s, e), user).value);
  }

  lemma PutRowOutcome(s: State, e: EventId, r: Row)
    ensures var s' := PutRow(s, e, r);
            OnlyEvent(s, s', e) && s'.rows[e] == r.going && s'.events[e] == r.event
  {}

  lemma RsvpRowOutcome(r: Row, user: UserId)
    requires Bounded(r) && RsvpRow(r, user).Ok?
    ensures var r' := RsvpRow(r, user).value;
            && (forall u :: r'.going[u] == if u == user then 1 else r.going[u])
            && r'.event == r.event.(rsvpCount := r.event.rsvpCount + if user in r.going then 0 else 1)
  {
    if user in r.going { assert r.going[user] == 1; }
  }

  /** A cancellation leaves the user without a row, and counts off the one that was there. */
  lemma CancelOutcome(s: State, org: OrgId, e: EventId, user: UserId)
    requires Valid(s)
    ensures var r := CancelRsvp(s, org, e, user);
            && (r.Ok? <==> MayAsk(s, org, user) && e in s.events && s.events[e].org == org)
            && (r.Ok? ==>
                  && OnlyEvent(s, r.value, e)
                  && (forall u :: r.value.rows[e][u] == if u == user then 0 else s.rows[e][u])
                  && (user in s.rows[e] ==> s.events[e].rsvpCount > 0)
                  && r.value.events[e] ==
                     s.events[e].(rsvpCount := if user in s.rows[e] then s.events[e].rsvpCount - 1
                                               else s.events[e].rsvpCount))
  {
    if InOrg(s, org, e) {
      assert Bounded(RowAt(s, e));
      RemoveAll(s.rows[e], user);
      PutRowOutcome(s, e, CancelRow(RowAt(s, e), user));
    }
  }

  /** The four transitions an organiser has: start or call off what is scheduled, complete or call
      off what is ongoing. They change the status alone. */
  lemma StatusOutcome(s: State, org: OrgId, e: EventId, status: Status)
    ensures var r := UpdateStatus(s, org, e, status);
            && (r == Err(EventNotFound) <==> (e in s.events ==> s.events[e].org != org))
            && (r.Ok? <==> e in s.events && s.events[e].org == org
                           && (s.events[e].status, status) in {(Scheduled, Ongoing), (Scheduled, Cancelled),
                                                               (Ongoing, Completed), (Ongoing, Cancelled)})
            && (r.Ok? ==> && r.value.rows == s.rows && r.value.users == s.users
                          && r.value.events == s.events[e := s.events[e].(status := status)])
  {}

  /** A removal succeeds exactly for another account that is a volunteer of the organisation, and
      ends the membership: the account stays, belongs nowhere and is a citizen. */
  lemma RemovalEndsMembership(s: State, org: OrgId, user: UserId, acting: UserId)
    ensures var r := RemoveVolunteer(s, org, user, acting);
            && (r.Ok? <==> && user != acting && user in s.users && s.users[user].org == Some(org)
                           && s.users[user].role == Volunteer)
            && (r.Ok? ==>
                  && r.value.users.Keys == s.users.Keys
                  && r.value.users[user].org.None? && r.value.users[user].role == Citizen
                  && r.value.users[user].active == s.users[user].active
                  && r.value.users[user].platformAdmin == s.users[user].platformAdmin
                  && (forall u :: u in s.users && u != user ==> r.value.users[u] == s.users[u])
                  && !IsMember(r.value.users, org, user))
  {}

  /** After a removal the former volunteer is turned away from every event. */
  lemma RemovedCannotRsvp(s: State, org: OrgId, user: UserId, acting: UserId, at: OrgId, e: EventId)
    requires RemoveVolunteer(s, org, user, acting).Ok?
    ensures var s' := RemoveVolunteer(s, org, user, acting).value;
            Rsvp(s', at, e, user) == Err(Forbidden) && CancelRsvp(s', at, e, user) == Err(Forbidden)
  {}

  /** Event by event: the removed volunteer's row goes, and its seat is counted off, exactly on
      scheduled and ongoing events of the organisation. */
  lemma RemovalOutcome(s: State, org: OrgId, user: UserId, acting: UserId, e: EventId)
    requires Valid(s) && RemoveVolunteer(s, org, user, acting).Ok? && e in s.events
    ensures var s', x := RemoveVolunteer(s, org, user, acting).value, s.events[e];
            var held := && x.org == org && (x.status == Scheduled || x.status == Ongoing)
                        && user in s.rows[e];
            && s'.events.Keys == s.events.Keys && s'.rows.Keys == s.rows.Keys
            && (held ==> x.rsvpCount > 0)
            && s'.events[e] == x.(rsvpCount := if held then x.rsvpCount - 1 else x.rsvpCount)
            && (forall u :: s'.rows[e][u] == if held && u == user then 0 else s.rows[e][u])
  {
    assert Bounded(RowAt(s, e));
    RemoveAll(s.rows[e], user);
  }

  /** Deleting an account takes its rows everywhere and its seats on scheduled and ongoing events of
      its own organisation. The accounts and rows of others stay. */
  lemma DeletionOutcome(s: State, user: UserId, e: EventId)
    requires Valid(s) && user in s.users && DeleteAccount(s, user).Ok? && e in s.events
    ensures var s', x := DeleteAccount(s, user).value, s.events[e];
            var seat := && s.users[user].org == Some(x.org) && (x.status == Scheduled || x.status == Ongoing)
                        && user in s.rows[e];
            && s'.users == s.users - {user}
            && s'.events.Keys == s.events.Keys && s'.rows.Keys == s.rows.Keys
            && (seat ==> x.rsvpCount > 0)
            && s'.events[e] == x.(rsvpCount := if seat then x.rsvpCount - 1 else x.rsvpCount)
            && (forall u :: s'.rows[e][u] == if u == user then 0 else s.rows[e][u])
  {
    DeletedTables(s, user);
    DeletedRow(s, user, e);
    assert Bounded(RowAt(s, e));
  }

  lemma DeletedTables(s: State, user: UserId)
    requires user in s.users && DeleteAccount(s, user).Ok?
    ensures var s' := DeleteAccount(s, user).value;
            s'.users == s.users - {user} && s'.events.Keys == s.events.Keys && s'.rows.Keys == s.rows.Keys
  {}

  /** Signing up and joining touch the accounts and no event or row. */
  lemma PeopleOutcome(s: State, user: UserId, org: OrgId, role: Role)
    ensures Apply(s, OpProvision(user)).Ok? <==> user !in s.users
    ensures user !in s.users ==>
              Apply(s, OpProvision(user)).value ==
              State(s.events, s.rows, s.users[user := User(None, Citizen, true, false)])
    ensures Apply(s, OpMembership(user, org, role)).Ok? <==> user in s.users
    ensures user in s.users ==>
              Apply(s, OpMembership(user, org, role)).value ==
              State(s.events, s.rows,
                    s.users[user := User(Some(org), role, s.users[user].active, s.users[user].platformAdmin)])
  {}

  // ----- The services, statement by statement -----

  /** The rows dealt with so far, as functions of the tables before the loop. */
  function EventsWithout(s: State, at: set<EventId>, user: UserId, finishedToo: bool): map<EventId, Event> {
    map e | e in s.events :: if e in at then WithdrawRow(RowAt(s, e), user, finishedToo).event else s.events[e]
  }

  function RowsWithout(s: State, at: set<EventId>, user: UserId, finishedToo: bool): map<EventId, multiset<UserId>> {
    map e | e in s.rows ::
      if e in at && e in s.events then WithdrawRow(RowAt(s, e), user, finishedToo).going else s.rows[e]
  }

  lemma EventsOneMore(s: State, done: set<EventId>, e: EventId, user: UserId, finishedToo: bool)
    requires e !in done && e in s.events
    ensures EventsWithout(s, done, user, finishedToo)[e] == s.events[e]
    ensures EventsWithout(s, done + {e}, user, finishedToo)
         == EventsWithout(s, done, user, finishedToo)[e := WithdrawRow(RowAt(s, e), user, finishedToo).event]
  {}

  lemma RowsOneMore(s: State, done: set<EventId>, e: EventId, user: UserId, finishedToo: bool)
    requires e !in done && e in s.events && e in s.rows
    ensures RowsWithout(s, done, user, finishedToo)[e] == s.rows[e]
    ensures RowsWithout(s, done + {e}, user, finishedToo)
         == RowsWithout(s, done, user, finishedToo)[e := WithdrawRow(RowAt(s, e), user, finishedToo).going]
  {}

  function Found(s: State, org: OrgId, user: UserId): set<EventId> {
    set e | e in s.rows && e in s.events && s.events[e].org == org && user in s.rows[e]
  }

  /** What the loop relies on when it takes one more event. */
  lemma TakeOne(s: State, done: set<EventId>, todo: set<EventId>, org: OrgId, e: EventId, user: UserId,
      finishedToo: bool)
    requires s.rows.Keys == s.events.Keys && done !! todo && done + todo == Found(s, org, user) && e in todo
    ensures e in s.events && e in s.rows && user in s.rows[e]
    ensures done + {e} !! todo - {e} && done + {e} + (todo - {e}) == Found(s, org, user)
    ensures EventsWithout(s, done, user, finishedToo)[e] == s.events[e]
    ensures RowsWithout(s, done, user, finishedToo)[e] == s.rows[e]
    ensures EventsWithout(s, done + {e}, user, finishedToo)
         == EventsWithout(s, done, user, finishedToo)[e := WithdrawRow(RowAt(s, e), user, finishedToo).event]
    ensures RowsWithout(s, done + {e}, user, finishedToo)
         == RowsWithout(s, done, user, finishedToo)[e := WithdrawRow(RowAt(s, e), user, finishedToo).going]
  {
    assert e in Found(s, org, user);
    EventsOneMore(s, done, e, user, finishedToo);
    RowsOneMore(s, done, e, user, finishedToo);
  }

  lemma NothingDone(s: State, user: UserId, finishedToo: bool)
    ensures EventsWithout(s, {}, user, finishedToo) == s.events && RowsWithout(s, {}, user, finishedToo) == s.rows
  {}

  lemma NotFoundNotWithdrawn(s: State, org: OrgId, user: UserId, finishedToo: bool, e: EventId)
    requires e in s.events && e in s.rows && s.events[e].org == org && e !in Found(s, org, user)
    ensures WithdrawRow(RowAt(s, e), user, finishedToo) == RowAt(s, e)
  {}

  lemma EventsFound(s: State, org: OrgId, user: UserId, finishedToo: bool)
    requires s.rows.Keys == s.events.Keys
    ensures EventsWithout(s, Found(s, org, user), user, finishedToo) == Withdraw(s, org, user, finishedToo).events
  {
    forall e | e in s.events
      ensures EventsWithout(s, Found(s, org, user), user, finishedToo)[e]
          == Withdraw(s, org, user, finishedToo).events[e]
    {
      if s.events[e].org == org && e !in Found(s, org, user) { NotFoundNotWithdrawn(s, org, user, finishedToo, e); }
    }
  }

  lemma RowsFound(s: State, org: OrgId, user: UserId, finishedToo: bool)
    requires s.rows.Keys == s.events.Keys
    ensures RowsWithout(s, Found(s, org, user), user, finishedToo) == Withdraw(s, org, user, finishedToo).rows
  {
    forall e | e in s.rows
      ensures RowsWithout(s, Found(s, org, user), user, finishedToo)[e] == Withdraw(s, org, user, finishedToo).rows[e]
    {
      if s.events[e].org == org && e !in Found(s, org, user) { NotFoundNotWithdrawn(s, org, user, finishedToo, e); }
    }
  }

  lemma AllFound(s: State, org: OrgId, user: UserId, finishedToo: bool)
    requires s.rows.Keys == s.events.Keys
    ensures var at := Found(s, org, user);
            s.(events := EventsWithout(s, at, user, finishedToo), rows := RowsWithout(s, at, user, finishedToo))
              == Withdraw(s, org, user, finishedToo)
  {
    EventsFound(s, org, user, finishedToo);
    RowsFound(s, org, user, finishedToo);
  }

  class EventTables {
    var events: map<EventId, Event>
    var rows: map<EventId, multiset<UserId>>
    var users: Users

    ghost function Now(): State
      reads this
    {
      State(events, rows, users)
    }

    constructor (users: Users)
      ensures Now() == State(map[], map[], users)
    {
      events, rows, this.users := map[], map[], users;
    }

    method Rsvp(org: OrgId, e: EventId, user: UserId) returns (error: Option<Error>)
      requires Valid(Now())
      modifies this
      ensures error == ErrorOf(Apply(old(Now()), OpRsvp(org, e, user)))
      ensures Now() == Step(old(Now()), OpRsvp(org, e, user))
    {
      if !MayEnter(users, org, user) || users[user].role != Volunteer { return Some(Forbidden); }
      if e !in events || events[e].org != org { return Some(EventNotFound); }
      var event := events[e];
      if event.status == Cancelled { return Some(Gone); }
      if event.status == Completed { return Some(AlreadyTakenPlace); }
      if user in rows[e] {
        assert Now() == old(Now()) && events[e := event] == events && rows[e := rows[e]] == rows;
        return None;
      }
      if event.maxAttendees.Some? && event.rsvpCount >= event.maxAttendees.value { return Some(AtCapacity); }
      rows := rows[e := rows[e] + multiset{user}];
      events := events[e := event.(rsvpCount := event.rsvpCount + 1)];
      return None;
    }

    method CancelRsvp(org: OrgId, e: EventId, user: UserId) returns (error: Option<Error>)
      requires Valid(Now())
      modifies this
      ensures error == ErrorOf(Apply(old(Now()), OpCancel(org, e, user)))
      ensures Now() == Step(old(Now()), OpCancel(org, e, user))
    {
      if !MayEnter(users, org, user) || users[user].role != Volunteer { return Some(Forbidden); }
      if e !in events || events[e].org != org { return Some(EventNotFound); }
      if user !in rows[e] {
        assert events[e := events[e]] == events && rows[e := rows[e]] == rows;
        return None;
      }
      rows := rows[e := Without(rows[e], user)];
      events := events[e := events[e].(rsvpCount := Less(events[e].rsvpCount))];
      return None;
    }

    method UpdateStatus(org: OrgId, e: EventId, status: Status) returns (error: Option<Error>)
      modifies this
      ensures error == ErrorOf(Apply(old(Now()), OpStatus(org, e, status)))
      ensures Now() == Step(old(Now()), OpStatus(org, e, status))
    {
      if e !in events || events[e].org != org { return Some(EventNotFound); }
      if !ValidTransition(events[e].status, status) { return Some(InvalidTransition); }
      events := events[e := events[e].(status := status)];
      return None;
    }

    /** The loop of `removeVolunteer` and of `withdrawFutureRsvps`: one row at a time, and the
        counter only when the event has not run its course. */
    method WithdrawEach(org: OrgId, user: UserId, finishedToo: bool)
      requires rows.Keys == events.Keys
      modifies `events, `rows
      ensures Now() == Withdraw(old(Now()), org, user, finishedToo)
    {
      ghost var before := Now();
      var todo := Found(State(events, rows, users), org, user);
      ghost var done: set<EventId> := {};
      NothingDone(before, user, finishedToo);
      while todo != {}
        invariant done !! todo && done + todo == Found(before, org, user)
        invariant events == EventsWithout(before, done, user, finishedToo)
        invariant rows == RowsWithout(before, done, user, finishedToo)
        decreases todo
      {
        var e :| e in todo;
        TakeOne(before, done, todo, org, e, user, finishedToo);
        WithdrawOne(e, user, finishedToo);
        todo := todo - {e};
        done := done + {e};
      }
      assert done == Found(before, org, user);
      AllFound(before, org, user, finishedToo);
    }

    /** The body of the loop. */
    method WithdrawOne(e: EventId, user: UserId, finishedToo: bool)
      requires e in events && e in rows && user in rows[e]
      modifies `events, `rows
      ensures var r := old(WithdrawRow(Row(events[e], rows[e]), user, finishedToo));
              events == old(events)[e := r.event] && rows == old(rows)[e := r.going]
    {
      var finished := events[e].status == Completed || events[e].status == Cancelled;
      assert events[e := events[e]] == events && rows[e := rows[e]] == rows;
      if finished && !finishedToo { return; }
      rows := rows[e := Without(rows[e], user)];
      if finished { return; }
      events := events[e := events[e].(rsvpCount := Less(events[e].rsvpCount))];
    }

    method RemoveVolunteer(org: OrgId, user: UserId, acting: UserId) returns (error: Option<Error>)
      requires Valid(Now())
      modifies this
      ensures error == ErrorOf(Apply(old(Now()), OpRemove(org, user, acting)))
      ensures Now() == Step(old(Now()), OpRemove(org, user, acting))
    {
      var refused := CheckRemoval(users, org, user, acting);
      if refused.Some? { return Some(Account(refused.value)); }
      WithdrawEach(org, user, false);
      users := Dismiss(users, user);
      return None;
    }

    method DeleteAccount(user: UserId) returns (error: Option<Error>)
      requires Valid(Now())
      modifies this
      ensures error == ErrorOf(Apply(old(Now()), OpDelete(user)))
      ensures Now() == Step(old(Now()), OpDelete(user))
    {
      var refused := CheckDeletion(users, user);
      if refused.Some? { return Some(Account(refused.value)); }
      if user !in users { return None; }
      if users[user].org.Some? { WithdrawEach(users[user].org.value, user, true); }
      ghost var withdrawn := Now();
      rows := map e | e in rows :: Without(rows[e], user);
      users := users - {user};
      assert Now() == DropUser(withdrawn, user);
      return None;
    }
  }
}
