/** Any number of concurrent `rsvp` and `cancelRsvp` transactions, statement by statement under
    READ COMMITTED. Each takes `SELECT ... FOR UPDATE` on the event row first. Every interleaving
    turns out to be the serial run in commit order. */
module RsvpProtocol {
  import opened Common
  import opened Accounts
  import opened Events

  type TxId = nat

  datatype Kind = DoRsvp | DoCancel

  datatype Request = Request(kind: Kind, org: OrgId, event: EventId, user: UserId)

  /** Committed event rows, each with its RSVP rows. */
  type Db = map<EventId, Row>

  // ----- Serial execution -----

  function SerialRow(r: Row, q: Request): Result<Row, Error> {
    match q.kind
    case DoRsvp => RsvpRow(r, q.user)
    case DoCancel => Ok(CancelRow(r, q.user))
  }

  function Serial(db: Db, q: Request): Result<Db, Error> {
    if q.event !in db || db[q.event].event.org != q.org then Err(EventNotFound)
    else
      match SerialRow(db[q.event], q)
      case Ok(r) => Ok(db[q.event := r])
      case Err(e) => Err(e)
  }

  /** A finished request and the error it reported, if any. */
  datatype Done = Done(request: Request, error: Option<Error>)

  function Replay(db: Db, history: seq<Done>): Db {
    if history == [] then db else
      var last := |history| - 1;
      var before := Replay(db, history[..last]);
      Settle(before, Serial(before, history[last].request))
  }

  /** Each request reported what it would have reported running alone at its place. */
  ghost predicate SameOutcomes(db: Db, history: seq<Done>) {
    forall i :: 0 <= i < |history| ==>
      history[i].error == ErrorOf(Serial(Replay(db, history[..i]), history[i].request))
  }

  // ----- Interleaved execution -----

  /** Where a transaction stands, with what it has read and written so far. Writes stay in the
      transaction until it commits. */
  datatype Pc =
    | Begun
    | Locked(seen: Event)
    | Checked(seen: Event, existing: bool)
    | Written(going: multiset<UserId>)
    | Ready(write: Option<Row>)
    | DuplicateKey

  datatype Tx = Tx(request: Request, pc: Pc)

  datatype Sys = Sys(db: Db, locks: map<EventId, TxId>, txs: map<TxId, Tx>, history: seq<Done>)

  datatype Action = Start(tx: TxId, request: Request) | Advance(tx: TxId) | Crash(tx: TxId)

  function Release(s: Sys, tx: TxId): Sys {
    s.(locks := map e | e in s.locks && s.locks[e] != tx :: s.locks[e], txs := s.txs - {tx})
  }

  /** The transaction ends with an answer; `error` means it rolled back. */
  function Finish(s: Sys, tx: TxId, error: Option<Error>): Sys
    requires tx in s.txs
  {
    Release(s, tx).(history := s.history + [Done(s.txs[tx].request, error)])
  }

  function Goto(s: Sys, tx: TxId, pc: Pc): Sys
    requires tx in s.txs
  {
    s.(txs := s.txs[tx := s.txs[tx].(pc := pc)])
  }

  /** A transaction waits only for the row lock, and only at its first statement. */
  predicate Blocked(s: Sys, tx: TxId)
    requires tx in s.txs
  {
    var q := s.txs[tx].request;
    s.txs[tx].pc.Begun? && q.event in s.db && s.db[q.event].event.org == q.org && q.event in s.locks
  }

  /** Runs the next statement. */
  function Statement(s: Sys, tx: TxId): Sys
    requires tx in s.txs
  {
    var q := s.txs[tx].request;
    if q.event !in s.db then Finish(s, tx, Some(EventNotFound))
    else
      var row := s.db[q.event];
      match s.txs[tx].pc
      case Begun =>
        if row.event.org != q.org then Finish(s, tx, Some(EventNotFound))
        else Goto(s, tx, Locked(row.event)).(locks := s.locks[q.event := tx])
      case Locked(seen) =>
        if q.kind.DoCancel? then
          if q.user in row.going then Goto(s, tx, Written(Without(row.going, q.user)))
          else Goto(s, tx, Ready(None))
        else if seen.status == Cancelled then Finish(s, tx, Some(Gone))
        else if seen.status == Completed then Finish(s, tx, Some(AlreadyTakenPlace))
        else Goto(s, tx, Checked(seen, q.user in row.going))
      case Checked(seen, existing) =>
        if existing then Goto(s, tx, Ready(None))
        else if Full(seen) then Finish(s, tx, Some(AtCapacity))
        else if q.user in row.going then Goto(s, tx, DuplicateKey)
        else Goto(s, tx, Written(row.going + multiset{q.user}))
      case Written(going) =>
        var count := if q.kind.DoRsvp? then row.event.rsvpCount + 1 else Less(row.event.rsvpCount);
        Goto(s, tx, Ready(Some(Row(row.event.(rsvpCount := count), going))))
      case Ready(None) => Finish(s, tx, None)
      case Ready(Some(write)) => Finish(s, tx, None).(db := s.db[q.event := write])
      case DuplicateKey => s
  }

  function Next(s: Sys, a: Action): Sys {
    match a
    case Start(tx, q) => if tx in s.txs then s else s.(txs := s.txs[tx := Tx(q, Begun)])
    case Advance(tx) => if tx !in s.txs || Blocked(s, tx) then s else Statement(s, tx)
    case Crash(tx) => Release(s, tx)
  }

  function Run(s: Sys, actions: seq<Action>): Sys
    decreases |actions|
  {
    if actions == [] then s else Run(Next(s, actions[0]), actions[1..])
  }

  function Initial(db: Db): Sys {
    Sys(db, map[], map[], [])
  }

  // ----- The invariant -----

  /** What a transaction past its first statement has read is still the committed truth, and
      what it has written is what it would have written running alone. */
  ghost predicate TxOk(s: Sys, tx: TxId)
    requires tx in s.txs
  {
    var q, pc := s.txs[tx].request, s.txs[tx].pc;
    !pc.Begun? ==>
      && q.event in s.db && s.db[q.event].event.org == q.org
      && q.event in s.locks && s.locks[q.event] == tx
      && var row := s.db[q.event];
         match pc
         case Begun => true
         case Locked(seen) => seen == row.event
         case Checked(seen, existing) =>
           q.kind.DoRsvp? && seen == row.event && Live(seen) && existing == (q.user in row.going)
         case Written(going) =>
           if q.kind.DoRsvp? then Live(row.event) && q.user !in row.going && !Full(row.event)
               && going == row.going + multiset{q.user}
           else q.user in row.going && going == Without(row.going, q.user)
         case Ready(write) => SerialRow(row, q) == Ok(if write.Some? then write.value else row)
         case DuplicateKey => false
  }

  ghost predicate LockOk(s: Sys, e: EventId)
    requires e in s.locks
  {
    s.locks[e] in s.txs && s.txs[s.locks[e]].request.event == e && !s.txs[s.locks[e]].pc.Begun?
  }

  ghost predicate Inv(init: Db, s: Sys) {
    && (forall tx :: tx in s.txs ==> TxOk(s, tx))
    && (forall e :: e in s.locks ==> LockOk(s, e))
    && s.db == Replay(init, s.history) && SameOutcomes(init, s.history)
  }

  lemma HistoryGrows(init: Db, history: seq<Done>, d: Done)
    requires SameOutcomes(init, history)
    requires d.error == ErrorOf(Serial(Replay(init, history), d.request))
    ensures SameOutcomes(init, history + [d])
    ensures var db := Replay(init, history); Replay(init, history + [d]) == Settle(db, Serial(db, d.request))
  {
    var h := history + [d];
    assert h[..|history|] == history;
    forall i | 0 <= i < |h|
      ensures h[i].error == ErrorOf(Serial(Replay(init, h[..i]), h[i].request))
    {
      assert h[..i] == if i < |history| then history[..i] else history;
    }
  }

  /** A lock names one transaction, so whoever else wants this event has not started reading. */
  lemma Exclusive(init: Db, s: Sys, tx: TxId, other: TxId)
    requires Inv(init, s) && tx in s.txs && other in s.txs && tx != other
    requires !s.txs[tx].pc.Begun? && s.txs[other].request.event == s.txs[tx].request.event
    ensures s.txs[other].pc.Begun?
  {
    assert TxOk(s, tx) && TxOk(s, other);
  }

  lemma ReleaseKeeps(init: Db, s: Sys, tx: TxId)
    requires Inv(init, s)
    ensures Inv(init, Release(s, tx))
  {
    var s' := Release(s, tx);
    forall t | t in s'.txs ensures TxOk(s', t) { assert TxOk(s, t); }
    forall e | e in s'.locks ensures LockOk(s', e) { assert LockOk(s, e); }
  }

  /** Ending with an error, when running alone would have ended with the same error. */
  lemma FailKeeps(init: Db, s: Sys, tx: TxId, error: Error)
    requires Inv(init, s) && tx in s.txs
    requires Serial(s.db, s.txs[tx].request) == Err(error)
    ensures Inv(init, Finish(s, tx, Some(error)))
  {
    ReleaseKeeps(init, s, tx);
    HistoryGrows(init, s.history, Done(s.txs[tx].request, Some(error)));
    FrameHistory(init, Release(s, tx), s.history + [Done(s.txs[tx].request, Some(error))]);
  }

  lemma FrameHistory(init: Db, s: Sys, history: seq<Done>)
    requires Inv(init, s) && s.db == Replay(init, history) && SameOutcomes(init, history)
    ensures Inv(init, s.(history := history))
  {
    var s' := s.(history := history);
    forall t | t in s'.txs ensures TxOk(s', t) { assert TxOk(s, t); }
    forall e | e in s'.locks ensures LockOk(s', e) { assert LockOk(s, e); }
  }

  /** Nobody else has read the row that a commit replaces. */
  lemma CommitKeepsOthers(init: Db, s: Sys, tx: TxId, r: Row, t: TxId)
    requires Inv(init, s) && tx in s.txs && !s.txs[tx].pc.Begun? && t in s.txs && t != tx
    ensures TxOk(Release(s, tx).(db := s.db[s.txs[tx].request.event := r]), t)
  {
    assert TxOk(s, t) && TxOk(s, tx);
    if s.txs[t].request.event == s.txs[tx].request.event { Exclusive(init, s, tx, t); }
  }

  lemma CommitKeeps(init: Db, s: Sys, tx: TxId, r: Row)
    requires Inv(init, s) && tx in s.txs && !s.txs[tx].pc.Begun?
    requires SerialRow(s.db[s.txs[tx].request.event], s.txs[tx].request) == Ok(r)
    ensures var q := s.txs[tx].request; Inv(init, Finish(s, tx, None).(db := s.db[q.event := r]))
  {
    var q := s.txs[tx].request;
    assert TxOk(s, tx);
    assert Serial(s.db, q) == Ok(s.db[q.event := r]);
    HistoryGrows(init, s.history, Done(q, None));
    var s' := Finish(s, tx, None).(db := s.db[q.event := r]);
    forall t | t in s'.txs ensures TxOk(s', t) {
      CommitKeepsOthers(init, s, tx, r, t);
      FrameTx(Release(s, tx).(db := s.db[q.event := r]), s', t);
    }
    forall e | e in s'.locks ensures LockOk(s', e) { assert LockOk(s, e); }
  }

  lemma FrameTx(s: Sys, s': Sys, t: TxId)
    requires t in s.txs && TxOk(s, t) && s' == s.(history := s'.history)
    ensures TxOk(s', t)
  {}

  lemma GotoKeeps(init: Db, s: Sys, tx: TxId, pc: Pc)
    requires Inv(init, s) && tx in s.txs && !s.txs[tx].pc.Begun? && !pc.Begun?
    requires TxOk(Goto(s, tx, pc), tx)
    ensures Inv(init, Goto(s, tx, pc))
  {
    var s' := Goto(s, tx, pc);
    forall t | t in s'.txs ensures TxOk(s', t) { assert TxOk(s, t); }
    forall e | e in s'.locks ensures LockOk(s', e) { assert LockOk(s, e); }
  }

  lemma LockKeeps(init: Db, s: Sys, tx: TxId)
    requires Inv(init, s) && tx in s.txs && s.txs[tx].pc.Begun? && !Blocked(s, tx)
    ensures Inv(init, Statement(s, tx))
  {
    var q := s.txs[tx].request;
    if q.event !in s.db || s.db[q.event].event.org != q.org {
      FailKeeps(init, s, tx, EventNotFound);
    } else {
      var s' := Statement(s, tx);
      forall t | t in s'.txs ensures TxOk(s', t) { assert TxOk(s, t); }
      forall e | e in s'.locks ensures LockOk(s', e) { if e != q.event { assert LockOk(s, e); } }
    }
  }

  lemma StatementKeeps(init: Db, s: Sys, tx: TxId)
    requires Inv(init, s) && tx in s.txs && !Blocked(s, tx)
    ensures Inv(init, Statement(s, tx))
  {
    var q := s.txs[tx].request;
    assert TxOk(s, tx);
    match s.txs[tx].pc
    case Begun => LockKeeps(init, s, tx);
    case Locked(seen) =>
      if q.kind.DoRsvp? && !Live(seen) {
        FailKeeps(init, s, tx, if seen.status == Cancelled then Gone else AlreadyTakenPlace);
      } else {
        GotoKeeps(init, s, tx, Statement(s, tx).txs[tx].pc);
      }
    case Checked(seen, existing) =>
      if !existing && Full(seen) {
        FailKeeps(init, s, tx, AtCapacity);
      } else {
        GotoKeeps(init, s, tx, Statement(s, tx).txs[tx].pc);
      }
    case Written(going) => GotoKeeps(init, s, tx, Statement(s, tx).txs[tx].pc);
    case Ready(write) =>
      assert s.db[q.event := s.db[q.event]] == s.db;
      CommitKeeps(init, s, tx, if write.Some? then write.value else s.db[q.event]);
  }

  lemma StartKeeps(init: Db, s: Sys, tx: TxId, q: Request)
    requires Inv(init, s)
    ensures Inv(init, Next(s, Start(tx, q)))
  {
    var s' := Next(s, Start(tx, q));
    forall t | t in s'.txs ensures TxOk(s', t) { if t in s.txs { assert TxOk(s, t); } }
    forall e | e in s'.locks ensures LockOk(s', e) { assert LockOk(s, e); }
  }

  lemma NextKeeps(init: Db, s: Sys, a: Action)
    requires Inv(init, s)
    ensures Inv(init, Next(s, a))
  {
    match a
    case Start(tx, q) => StartKeeps(init, s, tx, q);
    case Advance(tx) => if tx in s.txs && !Blocked(s, tx) { StatementKeeps(init, s, tx); }
    case Crash(tx) => ReleaseKeeps(init, s, tx);
  }

  lemma {:induction false} RunKeeps(init: Db, s: Sys, actions: seq<Action>)
    requires Inv(init, s)
    ensures Inv(init, Run(s, actions))
    decreases |actions|
  {
    if actions != [] {
      NextKeeps(init, s, actions[0]);
      RunKeeps(init, Next(s, actions[0]), actions[1..]);
    }
  }

  // ----- What follows -----

  /** Serializability: whatever the interleaving and whoever crashes, the committed database is
      the serial run of the finished requests in the order they finished, every one of them
      reported what that run reports, and no INSERT ever hit the primary key. */
  lemma Serializable(db: Db, actions: seq<Action>)
    ensures var s := Run(Initial(db), actions);
            && s.db == Replay(db, s.history)
            && SameOutcomes(db, s.history)
            && forall tx :: tx in s.txs ==> !s.txs[tx].pc.DuplicateKey?
  {
    RunKeeps(db, Initial(db), actions);
    var s := Run(Initial(db), actions);
    forall tx | tx in s.txs ensures !s.txs[tx].pc.DuplicateKey? { assert TxOk(s, tx); }
  }

  ghost predicate AllBounded(db: Db) {
    forall e :: e in db ==> Bounded(db[e])
  }

  lemma {:induction false} ReplayBounded(db: Db, history: seq<Done>)
    requires AllBounded(db)
    ensures AllBounded(Replay(db, history)) && Replay(db, history).Keys == db.Keys
    decreases |history|
  {
    if history != [] {
      var last := |history| - 1;
      var before, q := Replay(db, history[..last]), history[last].request;
      ReplayBounded(db, history[..last]);
      if q.event in before { RowSteps(before[q.event], q.user); }
    }
  }

  /** Capacity: in every interleaving each event keeps one row per user and
      rows <= rsvpCount <= maxAttendees. */
  lemma CapacityHolds(db: Db, actions: seq<Action>)
    requires AllBounded(db)
    ensures AllBounded(Run(Initial(db), actions).db)
  {
    Serializable(db, actions);
    ReplayBounded(db, Run(Initial(db), actions).history);
  }

  /** Nobody waits for ever on a waiter: the holder of a lock is never itself blocked. */
  lemma HolderCanMove(db: Db, actions: seq<Action>, tx: TxId)
    requires var s := Run(Initial(db), actions); tx in s.txs && Blocked(s, tx)
    ensures var s := Run(Initial(db), actions);
            var holder := s.locks[s.txs[tx].request.event];
            holder in s.txs && holder != tx && !Blocked(s, holder) && Statement(s, holder) != s
  {
    RunKeeps(db, Initial(db), actions);
    var s := Run(Initial(db), actions);
    var e := s.txs[tx].request.event;
    assert LockOk(s, e);
    assert TxOk(s, s.locks[e]);
  }

  // ----- Every request gets its answer -----

  /** Statements a transaction has before it at most. */
  function Rank(pc: Pc): nat {
    match pc
    case Begun => 5
    case Locked(_) => 4
    case Checked(_, _) => 3
    case Written(_) => 2
    case Ready(_) => 1
    case DuplicateKey => 0
  }

  /** The transaction goes on, n statements in a row. */
  function GoOn(s: Sys, tx: TxId, n: nat): Sys
    decreases n
  {
    if n == 0 then s else GoOn(Next(s, Advance(tx)), tx, n - 1)
  }

  /** Its next statement brings an unblocked transaction closer to its answer, or gives the answer
      that the request has when it runs alone on the committed rows. */
  lemma OneStatement(init: Db, s: Sys, tx: TxId)
    requires Inv(init, s) && tx in s.txs && !Blocked(s, tx)
    ensures var s1, q := Next(s, Advance(tx)), s.txs[tx].request;
            if tx in s1.txs then
              && s1.txs[tx].request == q && !Blocked(s1, tx) && Rank(s1.txs[tx].pc) < Rank(s.txs[tx].pc)
              && s1.db == s.db && s1.history == s.history
            else
              && s1.history == s.history + [Done(q, ErrorOf(Serial(s.db, q)))]
              && s1.db == Settle(s.db, Serial(s.db, q))
  {
    assert TxOk(s, tx);
    if s.txs[tx].pc.Ready? {
      LastStatement(s, tx);
    } else {
      match s.txs[tx].pc
      case Begun =>
      case Locked(seen) =>
      case Checked(seen, existing) =>
      case Written(going) =>
    }
  }

  lemma LastStatement(s: Sys, tx: TxId)
    requires tx in s.txs && s.txs[tx].pc.Ready? && TxOk(s, tx)
    ensures var s1, q := Next(s, Advance(tx)), s.txs[tx].request;
            && tx !in s1.txs && s1.history == s.history + [Done(q, None)]
            && Serial(s.db, q) == Ok(s1.db)
  {
    var e := s.txs[tx].request.event;
    assert s.db[e := s.db[e]] == s.db;
  }

  lemma {:induction false} GoesOnToTheEnd(init: Db, s: Sys, tx: TxId, n: nat)
    requires Inv(init, s) && tx in s.txs && !Blocked(s, tx) && Rank(s.txs[tx].pc) <= n
    ensures var s', q := GoOn(s, tx, n), s.txs[tx].request;
            && tx !in s'.txs && s'.history == s.history + [Done(q, ErrorOf(Serial(s.db, q)))]
            && s'.db == Settle(s.db, Serial(s.db, q))
    decreases n
  {
    assert TxOk(s, tx);
    OneStatement(init, s, tx);
    NextKeeps(init, s, Advance(tx));
    var s1 := Next(s, Advance(tx));
    if tx in s1.txs { GoesOnToTheEnd(init, s1, tx, n - 1); } else { GoneStays(s1, tx, n - 1); }
  }

  lemma {:induction false} GoneStays(s: Sys, tx: TxId, n: nat)
    requires tx !in s.txs
    ensures GoOn(s, tx, n) == s
  {
    if n > 0 { GoneStays(s, tx, n - 1); }
  }

  /** Progress: in every reached state, whatever else is under way, a transaction that does not wait
      for a lock is finished after five statements of its own. It then has the answer that the
      request has alone on the rows committed at that moment, and exactly that change is committed. */
  lemma UnblockedFinishes(db: Db, actions: seq<Action>, tx: TxId)
    requires var s := Run(Initial(db), actions); tx in s.txs && !Blocked(s, tx)
    ensures var s := Run(Initial(db), actions);
            var s', q := GoOn(s, tx, 5), s.txs[tx].request;
            && tx !in s'.txs && s'.history == s.history + [Done(q, ErrorOf(Serial(s.db, q)))]
            && s'.db == Settle(s.db, Serial(s.db, q))
  {
    RunKeeps(db, Initial(db), actions);
    GoesOnToTheEnd(db, Run(Initial(db), actions), tx, 5);
  }

  /** What running alone means for a row: `rsvp` and `cancelRsvp` as requests of the event table. */
  lemma SerialOutcome(db: Db, q: Request)
    requires AllBounded(db)
    ensures var r := Serial(db, q);
            var own := q.event in db && db[q.event].event.org == q.org;
            && (!own ==> r == Err(EventNotFound))
            && (own ==>
                  var x, going := db[q.event].event, db[q.event].going;
                  var live := x.status == Scheduled || x.status == Ongoing;
                  var full := x.maxAttendees.Some? && x.rsvpCount >= x.maxAttendees.value;
                  if q.kind.DoCancel? then
                    && r.Ok? && r.value.Keys == db.Keys
                    && (forall e :: e in db && e != q.event ==> r.value[e] == db[e])
                    && r.value[q.event].going[q.user] == 0
                    && (forall u :: u != q.user ==> r.value[q.event].going[u] == going[u])
                    && (q.user in going ==> x.rsvpCount > 0)
                    && r.value[q.event].event ==
                       x.(rsvpCount := if q.user in going then x.rsvpCount - 1 else x.rsvpCount)
                  else
                    && (x.status == Cancelled ==> r == Err(Gone))
                    && (x.status == Completed ==> r == Err(AlreadyTakenPlace))
                    && (live && q.user in going ==> r == Ok(db))
                    && (live && q.user !in going && full ==> r == Err(AtCapacity))
                    && (live && q.user !in going && !full ==>
                          r == Ok(db[q.event := Row(x.(rsvpCount := x.rsvpCount + 1), going + multiset{q.user})])))
  {
    if q.event in db {
      assert Bounded(db[q.event]);
      RemoveAll(db[q.event].going, q.user);
      assert db[q.event := db[q.event]] == db;
    }
  }

  /** Who waits: in a reached state, a request for an event of its organisation at its first statement,
      while another one is past that statement on the same event; nobody else. */
  lemma WaitsIff(db: Db, actions: seq<Action>, tx: TxId)
    requires tx in Run(Initial(db), actions).txs
    ensures var s := Run(Initial(db), actions);
            var q := s.txs[tx].request;
            Blocked(s, tx) <==>
              && s.txs[tx].pc.Begun? && q.event in s.db && s.db[q.event].event.org == q.org
              && exists other :: other in s.txs && other != tx && s.txs[other].request.event == q.event
                                 && !s.txs[other].pc.Begun?
  {
    RunKeeps(db, Initial(db), actions);
    var s := Run(Initial(db), actions);
    var q := s.txs[tx].request;
    if q.event in s.locks { assert LockOk(s, q.event); }
    forall other | other in s.txs && s.txs[other].request.event == q.event && !s.txs[other].pc.Begun?
      ensures q.event in s.locks
    {
      assert TxOk(s, other);
    }
  }

  /** A request begins if its number is free; one that dies leaves the committed rows, the answers given
      and everybody else alone, and gives its lock back. */
  lemma StartAndCrash(s: Sys, tx: TxId, q: Request)
    ensures var s' := Next(s, Start(tx, q));
            s' == if tx in s.txs then s else s.(txs := s.txs[tx := Tx(q, Begun)])
    ensures var s' := Next(s, Crash(tx));
            && s'.db == s.db && s'.history == s.history && tx !in s'.txs
            && (forall t :: t in s.txs && t != tx ==> t in s'.txs && s'.txs[t] == s.txs[t])
            && (forall e :: e in s'.locks <==> e in s.locks && s.locks[e] != tx)
            && (forall e :: e in s'.locks ==> s'.locks[e] == s.locks[e])
  {}
}
