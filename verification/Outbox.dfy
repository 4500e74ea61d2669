/** The notification outbox: requests schedule, reschedule and tombstone reminders, and a cron
    tick claims what is due and notifies people. Ticks may overlap. The mark on a dispatch row
    and the rows its handler writes share one transaction; push messages leave at once and no
    rollback recalls them. */
module Outbox {
  import opened Common
  import opened Accounts

  type Time = int
  type TxId = nat

  datatype Kind = IncidentProximity | TaskDueReminder | EventReminder

  /** UNIQUE (kind, entity_id) makes this the key of the table. */
  datatype Key = Key(kind: Kind, entity: nat)

  /** `dispatched_at`, with the transaction that set it and whether it claimed the row to send
      it or tombstoned it. */
  datatype Mark = Mark(at: Time, tx: TxId, claimed: bool)

  datatype Dispatch = Dispatch(dueAt: Time, mark: Option<Mark>, attempts: nat)

  type Table = map<Key, Dispatch>

  /** A row of `notifications`, with the tick that wrote it. */
  datatype Note = Note(key: Key, user: UserId, tick: TxId)

  const BATCH_SIZE := 100

  // ----- One row -----

  function ScheduleRow(row: Option<Dispatch>, dueAt: Time): Dispatch {
    match row
    case None => Dispatch(dueAt, None, 0)
    case Some(d) => if d.mark.None? then d.(dueAt := dueAt) else d
  }

  function CancelRow(d: Dispatch, now: Time, tx: TxId): Dispatch {
    if d.mark.None? then d.(mark := Some(Mark(now, tx, false))) else d
  }

  function ClaimRow(d: Dispatch, now: Time, tx: TxId): Dispatch {
    d.(mark := Some(Mark(now, tx, true)), attempts := d.attempts + 1)
  }

  predicate ClaimedBy(d: Dispatch, tick: TxId) {
    d.mark.Some? && d.mark.value.claimed && d.mark.value.tx == tick
  }

  // ----- The claiming query -----

  predicate Due(t: Table, locked: set<Key>, now: Time, k: Key) {
    k in t && t[k].mark.None? && t[k].dueAt <= now && k !in locked
  }

  /** ORDER BY due_at LIMIT 100 over the due rows nobody else holds. */
  ghost predicate IsBatch(t: Table, locked: set<Key>, now: Time, batch: seq<Key>) {
    && Distinct(batch) && |batch| <= BATCH_SIZE
    && (forall k :: k in batch ==> Due(t, locked, now, k))
    && (forall k, j :: k in batch && j !in batch && Due(t, locked, now, j) ==> t[k].dueAt <= t[j].dueAt)
    && (|batch| < BATCH_SIZE ==> forall k :: Due(t, locked, now, k) ==> k in batch)
  }

  /** One notification per recipient row that the handler read. */
  function NotesFor(k: Key, users: seq<UserId>, tick: TxId): multiset<Note> {
    if users == [] then multiset{} else NotesFor(k, users[1..], tick) + multiset{Note(k, users[0], tick)}
  }

  lemma {:induction false} NotesForOnce(k: Key, users: seq<UserId>, tick: TxId, n: Note)
    requires Distinct(users)
    ensures NotesFor(k, users, tick)[n] == (if n.key == k && n.tick == tick && n.user in users then 1 else 0)
  {
    if users != [] {
      NotesForOnce(k, users[1..], tick, n);
      assert users == [users[0]] + users[1..];
      assert users[0] !in users[1..];
    }
  }

  // ----- Transactions -----

  datatype Phase =
    | Serving                  // a request
    | Polling                  // a tick before its claim
    | Handling(todo: seq<Key>) // a tick with rows left to handle
    | Aborted                  // a statement failed; COMMIT will roll back

  datatype Tx = Tx(now: Time, phase: Phase, writes: Table, notes: multiset<Note>)

  /** The committed tables, the push messages ever handed out, and the open transactions. */
  datatype Sys = Sys(
    table: Table,
    notes: multiset<Note>,
    pushes: multiset<Note>,
    locks: map<Key, TxId>,
    txs: map<TxId, Tx>,
    used: set<TxId>,
    rolledBack: set<TxId>)

  datatype Statement =
    | Schedule(key: Key, dueAt: Time)
    | Insert(key: Key, dueAt: Time)
    | Cancel(key: Key)
    | Claim(batch: seq<Key>)
    | Handle(written: seq<UserId>, failed: bool)

  datatype Action =
    | Start(tx: TxId, now: Time, tick: bool)
    | Do(tx: TxId, statement: Statement)
    | Commit(tx: TxId)
    | Rollback(tx: TxId)

  /** What the transaction sees under the key: its own write or the latest committed row. */
  function View(s: Sys, tx: TxId, k: Key): Option<Dispatch>
    requires tx in s.txs
  {
    if k in s.txs[tx].writes then Some(s.txs[tx].writes[k])
    else if k in s.table then Some(s.table[k])
    else None
  }

  predicate Free(s: Sys, tx: TxId, k: Key) {
    k in s.locks ==> s.locks[k] == tx
  }

  function Write(s: Sys, tx: TxId, k: Key, d: Dispatch): Sys
    requires tx in s.txs
  {
    s.(locks := s.locks[k := tx], txs := s.txs[tx := s.txs[tx].(writes := s.txs[tx].writes[k := d])])
  }

  function Abort(s: Sys, tx: TxId): Sys
    requires tx in s.txs
  {
    s.(txs := s.txs[tx := s.txs[tx].(phase := Aborted)])
  }

  function ClaimAll(s: Sys, tx: TxId, batch: seq<Key>): Sys
    requires tx in s.txs && forall k :: k in batch ==> k in s.table
  {
    var t := s.txs[tx];
    var writes := map k | k in batch :: ClaimRow(s.table[k], t.now, tx);
    s.(locks := s.locks + map k | k in batch :: tx,
       txs := s.txs[tx := t.(phase := Handling(batch), writes := writes)])
  }

  /** The handler of the first claimed row writes to these users. A failed statement dooms the
      transaction; any other failure is caught and the loop goes on. */
  function HandleNext(s: Sys, tx: TxId, written: seq<UserId>, failed: bool): Sys
    requires tx in s.txs && s.txs[tx].phase.Handling? && s.txs[tx].phase.todo != []
  {
    var t := s.txs[tx];
    var notes := NotesFor(t.phase.todo[0], written, tx);
    s.(pushes := s.pushes + notes,
       txs := s.txs[tx := t.(notes := t.notes + notes,
                             phase := if failed then Aborted else Handling(t.phase.todo[1..]))])
  }

  /** A statement that has to wait for a row lock does nothing yet; it looks at the row again,
      as committed by then, when it is tried next. */
  ghost function Execute(s: Sys, tx: TxId, statement: Statement): Sys
    requires tx in s.txs
  {
    var t := s.txs[tx];
    match statement
    case Schedule(k, dueAt) =>
      if t.phase.Serving? && Free(s, tx, k) then Write(s, tx, k, ScheduleRow(View(s, tx, k), dueAt)) else s
    case Insert(k, dueAt) =>
      if !t.phase.Serving? || !Free(s, tx, k) then s
      else if View(s, tx, k).Some? then Abort(s, tx)
      else Write(s, tx, k, Dispatch(dueAt, None, 0))
    case Cancel(k) =>
      var row := View(s, tx, k);
      if t.phase.Serving? && row.Some? && row.value.mark.None? && Free(s, tx, k)
      then Write(s, tx, k, CancelRow(row.value, t.now, tx)) else s
    case Claim(batch) =>
      if t.phase.Polling? && IsBatch(s.table, s.locks.Keys, t.now, batch) then ClaimAll(s, tx, batch) else s
    case Handle(written, failed) =>
      if t.phase.Handling? && t.phase.todo != [] && Distinct(written) then HandleNext(s, tx, written, failed) else s
  }

  function Release(s: Sys, tx: TxId): Sys {
    s.(locks := map k | k in s.locks && s.locks[k] != tx :: s.locks[k], txs := s.txs - {tx})
  }

  function Undo(s: Sys, tx: TxId): Sys {
    Release(s, tx).(rolledBack := s.rolledBack + {tx})
  }

  function Publish(s: Sys, tx: TxId): Sys
    requires tx in s.txs
  {
    Release(s, tx).(table := s.table + s.txs[tx].writes, notes := s.notes + s.txs[tx].notes)
  }

  function Finish(s: Sys, tx: TxId): Sys
    requires tx in s.txs
  {
    match s.txs[tx].phase
    case Serving => Publish(s, tx)
    case Polling => s
    case Handling(todo) => if todo == [] then Publish(s, tx) else s
    case Aborted => Undo(s, tx)
  }

  function Begin(s: Sys, tx: TxId, now: Time, tick: bool): Sys {
    s.(txs := s.txs[tx := Tx(now, if tick then Polling else Serving, map[], multiset{})], used := s.used + {tx})
  }

  ghost function Next(s: Sys, a: Action): Sys {
    match a
    case Start(tx, now, tick) => if tx in s.used then s else Begin(s, tx, now, tick)
    case Do(tx, statement) => if tx in s.txs then Execute(s, tx, statement) else s
    case Commit(tx) => if tx in s.txs then Finish(s, tx) else s
    case Rollback(tx) => if tx in s.txs then Undo(s, tx) else s
  }

  ghost function Run(s: Sys, actions: seq<Action>): Sys
    decreases |actions|
  {
    if actions == [] then s else Run(Next(s, actions[0]), actions[1..])
  }

  const EMPTY := Sys(map[], multiset{}, multiset{}, map[], map[], {}, {})

  // ----- The invariant -----

  /** A claimed row was due, was claimed once and never before; any other row was not attempted. */
  ghost predicate RowOk(d: Dispatch) {
    var claimed := d.mark.Some? && d.mark.value.claimed;
    (claimed ==> d.dueAt <= d.mark.value.at) && d.attempts == (if claimed then 1 else 0)
  }

  ghost predicate CommittedOk(s: Sys, d: Dispatch) {
    && RowOk(d)
    && (d.mark.Some? ==> d.mark.value.tx in s.used && d.mark.value.tx !in s.txs && d.mark.value.tx !in s.rolledBack)
  }

  /** A pending write is on a row its transaction holds. It leaves a marked row as it is. */
  ghost predicate WriteOk(s: Sys, tx: TxId, k: Key)
    requires tx in s.txs && k in s.txs[tx].writes
  {
    var d := s.txs[tx].writes[k];
    && k in s.locks && s.locks[k] == tx && RowOk(d)
    && (if k in s.table && s.table[k].mark.Some? then d == s.table[k]
        else d.mark.Some? ==> d.mark.value.tx == tx)
  }

  ghost predicate PendingNoteOk(t: Tx, tx: TxId, n: Note) {
    t.notes[n] == 1 && n.tick == tx && n.key in t.writes && ClaimedBy(t.writes[n.key], tx)
  }

  ghost predicate TodoOk(t: Tx, tx: TxId) {
    t.phase.Handling? ==>
      && Distinct(t.phase.todo)
      && (forall k :: k in t.phase.todo ==> k in t.writes && ClaimedBy(t.writes[k], tx))
      && (forall n :: n in t.notes ==> n.key !in t.phase.todo)
  }

  ghost predicate TxOk(s: Sys, tx: TxId)
    requires tx in s.txs
  {
    var t := s.txs[tx];
    && tx in s.used && tx !in s.rolledBack
    && (t.phase.Polling? ==> t.writes == map[])
    && (t.phase.Serving? || t.phase.Polling? ==> t.notes == multiset{})
    && (forall k :: k in t.writes ==> WriteOk(s, tx, k))
    && (forall n :: n in t.notes ==> PendingNoteOk(t, tx, n))
    && TodoOk(t, tx)
  }

  ghost predicate NoteOk(s: Sys, n: Note) {
    s.notes[n] == 1 && n.key in s.table && ClaimedBy(s.table[n.key], n.tick)
  }

  ghost predicate InHand(s: Sys, n: Note) {
    && n.tick in s.txs && !s.txs[n.tick].phase.Serving?
    && n.key in s.txs[n.tick].writes && ClaimedBy(s.txs[n.tick].writes[n.key], n.tick)
    && (s.txs[n.tick].phase.Handling? ==> n.key !in s.txs[n.tick].phase.todo)
  }

  ghost predicate PushOk(s: Sys, n: Note) {
    && s.pushes[n] == 1
    && (n.tick in s.rolledBack || InHand(s, n) || (n.key in s.table && ClaimedBy(s.table[n.key], n.tick)))
    && n.tick in s.used
  }

  ghost predicate Inv(s: Sys) {
    && s.txs.Keys <= s.used && s.rolledBack <= s.used
    && (forall tx :: tx in s.txs ==> TxOk(s, tx))
    && (forall k :: k in s.table ==> CommittedOk(s, s.table[k]))
    && (forall n :: n in s.notes ==> NoteOk(s, n))
    && (forall n :: n in s.pushes ==> PushOk(s, n))
  }

  /** Committed rows do not care who else is at work. */
  lemma CommittedFrame(s: Sys, s': Sys)
    requires Inv(s) && s'.table == s.table && s'.notes == s.notes && s.used <= s'.used && s'.rolledBack == s.rolledBack
    requires forall tx :: tx in s'.txs ==> tx in s.txs || tx !in s.used
    ensures forall k :: k in s'.table ==> CommittedOk(s', s'.table[k])
    ensures forall n :: n in s'.notes ==> NoteOk(s', n)
  {
    forall k | k in s'.table ensures CommittedOk(s', s'.table[k]) { assert CommittedOk(s, s.table[k]); }
    forall n | n in s'.notes ensures NoteOk(s', n) { assert NoteOk(s, n); }
  }

  lemma BeginKeeps(s: Sys, tx: TxId, now: Time, tick: bool)
    requires Inv(s) && tx !in s.used
    ensures Inv(Begin(s, tx, now, tick))
  {
    var s' := Begin(s, tx, now, tick);
    forall t | t in s'.txs ensures TxOk(s', t) {
      if t in s.txs { OtherTxOk(s, s', t); }
    }
    CommittedFrame(s, s');
    forall n | n in s'.pushes ensures PushOk(s', n) { assert PushOk(s, n); }
  }

  lemma OtherTxOk(s: Sys, s': Sys, t: TxId)
    requires t in s.txs && TxOk(s, t) && t in s'.txs && s'.txs[t] == s.txs[t]
    requires s'.table == s.table && s.used <= s'.used && t !in s'.rolledBack
    requires forall k :: k in s.locks && s.locks[k] == t ==> k in s'.locks && s'.locks[k] == t
    ensures TxOk(s', t)
  {
    assert forall k :: k in s.txs[t].writes ==> WriteOk(s, t, k);
  }

  lemma WriteKeepsTx(s: Sys, tx: TxId, k: Key, d: Dispatch)
    requires tx in s.txs && TxOk(s, tx) && s.txs[tx].phase.Serving? && RowOk(d)
    requires if k in s.table && s.table[k].mark.Some? then d == s.table[k] else d.mark.Some? ==> d.mark.value.tx == tx
    ensures TxOk(Write(s, tx, k, d), tx)
  {
    var s' := Write(s, tx, k, d);
    forall j | j in s'.txs[tx].writes ensures WriteOk(s', tx, j) {
      if j != k { assert WriteOk(s, tx, j); }
    }
  }

  lemma WriteKeeps(s: Sys, tx: TxId, k: Key, d: Dispatch)
    requires Inv(s) && tx in s.txs && s.txs[tx].phase.Serving? && Free(s, tx, k) && RowOk(d)
    requires if k in s.table && s.table[k].mark.Some? then d == s.table[k] else d.mark.Some? ==> d.mark.value.tx == tx
    ensures Inv(Write(s, tx, k, d))
  {
    var s' := Write(s, tx, k, d);
    forall t | t in s'.txs ensures TxOk(s', t) {
      if t != tx { OtherTxOk(s, s', t); } else { WriteKeepsTx(s, tx, k, d); }
    }
    CommittedFrame(s, s');
    forall n | n in s'.pushes ensures PushOk(s', n) { assert PushOk(s, n); }
  }

  lemma AbortKeeps(s: Sys, tx: TxId)
    requires Inv(s) && tx in s.txs
    ensures Inv(Abort(s, tx))
  {
    var s' := Abort(s, tx);
    forall t | t in s'.txs ensures TxOk(s', t) {
      assert TxOk(s, t);
      if t != tx { OtherTxOk(s, s', t); }
      else { assert forall j :: j in s.txs[tx].writes ==> WriteOk(s, tx, j); }
    }
    CommittedFrame(s, s');
    forall n | n in s'.pushes ensures PushOk(s', n) { assert PushOk(s, n); AbortPushes(s, tx, n); }
  }

  lemma AbortPushes(s: Sys, tx: TxId, n: Note)
    requires tx in s.txs && n in s.pushes && PushOk(s, n)
    ensures PushOk(Abort(s, tx), n)
  {}

  lemma ClaimKeepsTx(s: Sys, tx: TxId, batch: seq<Key>)
    requires tx in s.txs && TxOk(s, tx) && s.txs[tx].phase.Polling?
    requires IsBatch(s.table, s.locks.Keys, s.txs[tx].now, batch)
    requires forall k :: k in batch ==> RowOk(s.table[k])
    ensures TxOk(ClaimAll(s, tx, batch), tx)
  {
    var s' := ClaimAll(s, tx, batch);
    forall k | k in s'.txs[tx].writes ensures WriteOk(s', tx, k) {
      assert k in batch;
    }
  }

  /** A tick that has claimed nothing yet has pushed nothing. */
  lemma ClaimPushes(s: Sys, tx: TxId, batch: seq<Key>, n: Note)
    requires tx in s.txs && TxOk(s, tx) && s.txs[tx].phase.Polling? && n in s.pushes && PushOk(s, n)
    requires forall k :: k in batch ==> k in s.table
    ensures PushOk(ClaimAll(s, tx, batch), n)
  {}

  lemma ClaimKeeps(s: Sys, tx: TxId, batch: seq<Key>)
    requires Inv(s) && tx in s.txs && s.txs[tx].phase.Polling?
    requires IsBatch(s.table, s.locks.Keys, s.txs[tx].now, batch)
    ensures Inv(ClaimAll(s, tx, batch))
  {
    var s' := ClaimAll(s, tx, batch);
    forall t | t in s'.txs ensures TxOk(s', t) {
      if t != tx { OtherTxOk(s, s', t); }
      else {
        assert forall k :: k in batch ==> CommittedOk(s, s.table[k]);
        ClaimKeepsTx(s, tx, batch);
      }
    }
    CommittedFrame(s, s');
    forall n | n in s'.pushes ensures PushOk(s', n) { ClaimPushes(s, tx, batch, n); }
  }

  /** What the handler writes is under a key the tick has not handled, so nothing is there twice. */
  lemma HandleNote(t: Tx, t': Tx, tx: TxId, written: seq<UserId>, n: Note)
    requires t.phase.Handling? && t.phase.todo != [] && Distinct(written) && TodoOk(t, tx)
    requires t'.writes == t.writes && t'.notes == t.notes + NotesFor(t.phase.todo[0], written, tx)
    requires t'.phase == Aborted || t'.phase == Handling(t.phase.todo[1..])
    requires n in t'.notes && (n in t.notes ==> PendingNoteOk(t, tx, n))
    ensures PendingNoteOk(t', tx, n) && (t'.phase.Handling? ==> n.key !in t'.phase.todo)
  {
    NotesForOnce(t.phase.todo[0], written, tx, n);
    assert t.phase.todo == [t.phase.todo[0]] + t.phase.todo[1..];
    assert t.phase.todo[0] in t.phase.todo && t.phase.todo[0] !in t.phase.todo[1..];
  }

  lemma HandleKeepsTx(s: Sys, tx: TxId, written: seq<UserId>, failed: bool)
    requires tx in s.txs && TxOk(s, tx) && s.txs[tx].phase.Handling? && s.txs[tx].phase.todo != []
    requires Distinct(written)
    ensures TxOk(HandleNext(s, tx, written, failed), tx)
  {
    var s' := HandleNext(s, tx, written, failed);
    var t, t', todo := s.txs[tx], s'.txs[tx], s.txs[tx].phase.todo;
    assert forall k :: k in t.writes ==> WriteOk(s, tx, k);
    assert todo == [todo[0]] + todo[1..];
    assert todo[0] !in todo[1..];
    forall n | n in t'.notes ensures PendingNoteOk(t', tx, n) && (t'.phase.Handling? ==> n.key !in t'.phase.todo) {
      HandleNote(t, t', tx, written, n);
    }
  }

  /** A tick pushes each key once: what it handles now it has not handled before, and nobody
      else has its number. */
  lemma HandlePushes(s: Sys, tx: TxId, written: seq<UserId>, failed: bool, n: Note)
    requires Inv(s) && tx in s.txs && s.txs[tx].phase.Handling? && s.txs[tx].phase.todo != []
    requires Distinct(written) && n in HandleNext(s, tx, written, failed).pushes
    ensures PushOk(HandleNext(s, tx, written, failed), n)
  {
    var k := s.txs[tx].phase.todo[0];
    var todo := s.txs[tx].phase.todo;
    assert TxOk(s, tx) && TodoOk(s.txs[tx], tx);
    NotesForOnce(k, written, tx, n);
    if n in s.pushes { assert PushOk(s, n); }
    assert k in todo && k !in todo[1..];
    if n.key in s.table { assert CommittedOk(s, s.table[n.key]); }
  }

  lemma HandleKeeps(s: Sys, tx: TxId, written: seq<UserId>, failed: bool)
    requires Inv(s) && tx in s.txs && s.txs[tx].phase.Handling? && s.txs[tx].phase.todo != []
    requires Distinct(written)
    ensures Inv(HandleNext(s, tx, written, failed))
  {
    var s' := HandleNext(s, tx, written, failed);
    forall t | t in s'.txs ensures TxOk(s', t) {
      if t != tx { OtherTxOk(s, s', t); } else { HandleKeepsTx(s, tx, written, failed); }
    }
    CommittedFrame(s, s');
    forall n | n in s'.pushes ensures PushOk(s', n) { HandlePushes(s, tx, written, failed, n); }
  }

  lemma UndoKeeps(s: Sys, tx: TxId)
    requires Inv(s) && tx in s.txs
    ensures Inv(Undo(s, tx))
  {
    var s' := Undo(s, tx);
    forall t | t in s'.txs ensures TxOk(s', t) { OtherTxOk(s, s', t); }
    forall k | k in s'.table ensures CommittedOk(s', s'.table[k]) { assert CommittedOk(s, s.table[k]); }
    forall n | n in s'.notes ensures NoteOk(s', n) { assert NoteOk(s, n); }
    forall n | n in s'.pushes ensures PushOk(s', n) { assert PushOk(s, n); }
  }

  /** A COMMIT replaces only rows its transaction holds, so no other pending write is affected. */
  lemma PublishKeepsTx(s: Sys, tx: TxId, t: TxId)
    requires tx in s.txs && t in s.txs && t != tx && TxOk(s, tx) && TxOk(s, t)
    ensures TxOk(Publish(s, tx), t)
  {
    var s' := Publish(s, tx);
    forall k | k in s.txs[t].writes ensures WriteOk(s', t, k) {
      assert WriteOk(s, t, k);
      assert k in s.txs[tx].writes ==> WriteOk(s, tx, k);
    }
  }

  /** A row that was marked before a COMMIT is the same row after it. */
  lemma PublishFreezes(s: Sys, tx: TxId, k: Key)
    requires tx in s.txs && TxOk(s, tx) && k in s.table && s.table[k].mark.Some?
    ensures var s' := Publish(s, tx); k in s'.table && s'.table[k] == s.table[k]
  {
    if k in s.txs[tx].writes { assert WriteOk(s, tx, k); }
  }

  lemma PublishRow(s: Sys, tx: TxId, k: Key)
    requires tx in s.txs && TxOk(s, tx) && k in Publish(s, tx).table
    requires k in s.table ==> CommittedOk(s, s.table[k])
    ensures CommittedOk(Publish(s, tx), Publish(s, tx).table[k])
  {
    if k in s.txs[tx].writes { assert WriteOk(s, tx, k); }
  }

  lemma PublishNote(s: Sys, tx: TxId, n: Note)
    requires Inv(s) && tx in s.txs && n in Publish(s, tx).notes
    ensures NoteOk(Publish(s, tx), n)
  {
    assert TxOk(s, tx);
    if n in s.notes {
      assert NoteOk(s, n);
      PublishFreezes(s, tx, n.key);
    }
    if n in s.txs[tx].notes {
      assert PendingNoteOk(s.txs[tx], tx, n);
      if n.key in s.table { assert CommittedOk(s, s.table[n.key]); }
    }
  }

  lemma PublishPush(s: Sys, tx: TxId, n: Note)
    requires Inv(s) && tx in s.txs && n in s.pushes
    ensures PushOk(Publish(s, tx), n)
  {
    assert PushOk(s, n) && TxOk(s, tx);
    if n.key in s.table && s.table[n.key].mark.Some? { PublishFreezes(s, tx, n.key); }
  }

  lemma PublishKeeps(s: Sys, tx: TxId)
    requires Inv(s) && tx in s.txs
    ensures Inv(Publish(s, tx))
  {
    var s' := Publish(s, tx);
    forall t | t in s'.txs ensures TxOk(s', t) { PublishKeepsTx(s, tx, t); }
    forall k | k in s'.table ensures CommittedOk(s', s'.table[k]) { PublishRow(s, tx, k); }
    forall n | n in s'.notes ensures NoteOk(s', n) { PublishNote(s, tx, n); }
    forall n | n in s'.pushes ensures PushOk(s', n) { PublishPush(s, tx, n); }
  }

  lemma RequestKeeps(s: Sys, tx: TxId, statement: Statement)
    requires Inv(s) && tx in s.txs && (statement.Schedule? || statement.Insert? || statement.Cancel?)
    ensures Inv(Execute(s, tx, statement))
  {
    var k, row := statement.key, View(s, tx, statement.key);
    assert TxOk(s, tx);
    if k in s.txs[tx].writes { assert WriteOk(s, tx, k); }
    if k in s.table { assert CommittedOk(s, s.table[k]); }
    if s.txs[tx].phase.Serving? && Free(s, tx, k) {
      match statement
      case Schedule(_, dueAt) => WriteKeeps(s, tx, k, ScheduleRow(row, dueAt));
      case Insert(_, dueAt) =>
        if row.Some? { AbortKeeps(s, tx); } else { WriteKeeps(s, tx, k, Dispatch(dueAt, None, 0)); }
      case Cancel(_) =>
        if row.Some? && row.value.mark.None? { WriteKeeps(s, tx, k, CancelRow(row.value, s.txs[tx].now, tx)); }
    }
  }

  lemma FinishKeeps(s: Sys, tx: TxId)
    requires Inv(s) && tx in s.txs
    ensures Inv(Finish(s, tx))
  {
    match s.txs[tx].phase
    case Serving => PublishKeeps(s, tx);
    case Polling =>
    case Handling(todo) => if todo == [] { PublishKeeps(s, tx); }
    case Aborted => UndoKeeps(s, tx);
  }

  lemma NextKeeps(s: Sys, a: Action)
    requires Inv(s)
    ensures Inv(Next(s, a))
  {
    match a
    case Start(tx, now, tick) => if tx !in s.used { BeginKeeps(s, tx, now, tick); }
    case Do(tx, statement) =>
      if tx in s.txs {
        match statement
        case Claim(batch) =>
          if s.txs[tx].phase.Polling? && IsBatch(s.table, s.locks.Keys, s.txs[tx].now, batch) {
            ClaimKeeps(s, tx, batch);
          }
        case Handle(written, failed) =>
          if s.txs[tx].phase.Handling? && s.txs[tx].phase.todo != [] && Distinct(written) {
            HandleKeeps(s, tx, written, failed);
          }
        case _ => RequestKeeps(s, tx, statement);
      }
    case Commit(tx) => if tx in s.txs { FinishKeeps(s, tx); }
    case Rollback(tx) => if tx in s.txs { UndoKeeps(s, tx); }
  }

  lemma {:induction false} RunKeeps(s: Sys, actions: seq<Action>)
    requires Inv(s)
    ensures Inv(Run(s, actions))
    decreases |actions|
  {
    if actions != [] {
      NextKeeps(s, actions[0]);
      RunKeeps(Next(s, actions[0]), actions[1..]);
    }
  }

  // ----- What follows -----

  lemma FinishFreezes(s: Sys, tx: TxId, k: Key)
    requires Inv(s) && tx in s.txs && k in s.table && s.table[k].mark.Some?
    ensures var s' := Finish(s, tx); k in s'.table && s'.table[k] == s.table[k]
  {
    assert TxOk(s, tx);
    PublishFreezes(s, tx, k);
  }

  lemma NextFreezes(s: Sys, a: Action, k: Key)
    requires Inv(s) && k in s.table && s.table[k].mark.Some?
    ensures var s' := Next(s, a); k in s'.table && s'.table[k] == s.table[k]
  {
    if a.Commit? && a.tx in s.txs { FinishFreezes(s, a.tx, k); }
  }

  lemma {:induction false} RunFreezes(s: Sys, more: seq<Action>, k: Key)
    requires Inv(s) && k in s.table && s.table[k].mark.Some?
    ensures var s' := Run(s, more); k in s'.table && s'.table[k] == s.table[k]
    decreases |more|
  {
    if more != [] {
      NextFreezes(s, more[0], k);
      NextKeeps(s, more[0]);
      RunFreezes(Next(s, more[0]), more[1..], k);
    }
  }

  /** Once a mark is committed the row never changes again: no reschedule, no tombstone and no
      later tick brings a sent reminder back. */
  lemma MarkIsFinal(actions: seq<Action>, more: seq<Action>, k: Key)
    requires var s := Run(EMPTY, actions); k in s.table && s.table[k].mark.Some?
    ensures var s := Run(EMPTY, actions);
            var later := Run(s, more);
            k in later.table && later.table[k] == s.table[k]
  {
    RunKeeps(EMPTY, actions);
    RunFreezes(Run(EMPTY, actions), more, k);
  }

  /** At most once, for what is stored: over every interleaving, a committed notification has the
      committed mark of the very tick that wrote it, that tick found the row due and was the
      first to attempt it, and a user has at most one notification per kind and entity. */
  lemma StoredAtMostOnce(actions: seq<Action>, n: Note, m: Note)
    requires var s := Run(EMPTY, actions); n in s.notes && m in s.notes
    ensures var s := Run(EMPTY, actions);
            && s.notes[n] == 1
            && n.key in s.table && ClaimedBy(s.table[n.key], n.tick)
            && s.table[n.key].dueAt <= s.table[n.key].mark.value.at && s.table[n.key].attempts == 1
            && (n.key == m.key ==> n.tick == m.tick)
            && (n.key == m.key && n.user == m.user ==> n == m)
  {
    RunKeeps(EMPTY, actions);
    var s := Run(EMPTY, actions);
    assert NoteOk(s, n) && NoteOk(s, m);
    assert CommittedOk(s, s.table[n.key]);
  }

  /** A committed tombstone silences the reminder for good. */
  lemma TombstoneSilences(actions: seq<Action>, more: seq<Action>, k: Key, n: Note)
    requires var s := Run(EMPTY, actions); k in s.table && s.table[k].mark.Some? && !s.table[k].mark.value.claimed
    requires n in Run(Run(EMPTY, actions), more).notes
    ensures n.key != k
  {
    RunKeeps(EMPTY, actions);
    MarkIsFinal(actions, more, k);
    RunKeeps(Run(EMPTY, actions), more);
    assert NoteOk(Run(Run(EMPTY, actions), more), n);
  }

  /** For push messages it is weaker: a tick sends each of them once, and two different ticks
      push for the same dispatch only if one of them has rolled back. */
  lemma PushedTwiceOnlyAfterRollback(actions: seq<Action>, n: Note, m: Note)
    requires var s := Run(EMPTY, actions); n in s.pushes && m in s.pushes
    ensures var s := Run(EMPTY, actions);
            && s.pushes[n] == 1
            && (n.key == m.key && n.tick != m.tick ==> n.tick in s.rolledBack || m.tick in s.rolledBack)
  {
    RunKeeps(EMPTY, actions);
    var s := Run(EMPTY, actions);
    assert PushOk(s, n) && PushOk(s, m);
    if n.key == m.key && n.tick !in s.rolledBack && m.tick !in s.rolledBack {
      HoldersAgree(s, n, m);
    }
  }

  lemma HoldersAgree(s: Sys, n: Note, m: Note)
    requires Inv(s) && n.key == m.key
    requires InHand(s, n) || (n.key in s.table && ClaimedBy(s.table[n.key], n.tick))
    requires InHand(s, m) || (m.key in s.table && ClaimedBy(s.table[m.key], m.tick))
    ensures n.tick == m.tick
  {
    if n.key in s.table { assert CommittedOk(s, s.table[n.key]); }
    if InHand(s, n) { assert TxOk(s, n.tick) && WriteOk(s, n.tick, n.key); }
    if InHand(s, m) { assert TxOk(s, m.tick) && WriteOk(s, m.tick, m.key); }
  }

  // ----- What each request leaves behind -----

  /** How a statement of a request changes what its own transaction sees. Nothing is committed yet. */
  lemma RequestOutcome(s: Sys, tx: TxId, k: Key, dueAt: Time)
    requires tx in s.txs && s.txs[tx].phase.Serving? && Free(s, tx, k)
    ensures var row, now := View(s, tx, k), s.txs[tx].now;
            var scheduled, inserted, cancelled :=
              Next(s, Do(tx, Schedule(k, dueAt))), Next(s, Do(tx, Insert(k, dueAt))), Next(s, Do(tx, Cancel(k)));
            && Uncommitted(s, scheduled, tx, k) && Uncommitted(s, inserted, tx, k) && Uncommitted(s, cancelled, tx, k)
            && (row.None? ==>
                  && View(scheduled, tx, k) == Some(Dispatch(dueAt, None, 0))
                  && View(inserted, tx, k) == Some(Dispatch(dueAt, None, 0)) && inserted.txs[tx].phase.Serving?
                  && View(cancelled, tx, k) == None)
            && (row.Some? && row.value.mark.None? ==>
                  && View(scheduled, tx, k) == Some(Dispatch(dueAt, None, row.value.attempts))
                  && View(cancelled, tx, k)
                     == Some(Dispatch(row.value.dueAt, Some(Mark(now, tx, false)), row.value.attempts)))
            && (row.Some? && row.value.mark.Some? ==>
                  View(scheduled, tx, k) == row && View(cancelled, tx, k) == row)
            && (row.Some? ==> View(inserted, tx, k) == row && inserted.txs[tx].phase.Aborted?)
            && scheduled.txs[tx].phase.Serving? && cancelled.txs[tx].phase.Serving?
  {}

  /** The committed tables are as they were, and so is what this transaction sees of other rows. */
  ghost predicate Uncommitted(s: Sys, s': Sys, tx: TxId, k: Key)
    requires tx in s.txs
  {
    && s'.table == s.table && s'.notes == s.notes && s'.pushes == s.pushes
    && tx in s'.txs && s'.txs[tx].notes == s.txs[tx].notes && s'.txs[tx].now == s.txs[tx].now
    && forall j :: j != k ==> View(s', tx, j) == View(s, tx, j)
  }

  /** COMMIT publishes what the transaction sees, unless a statement has failed or a tick has rows left
      to handle; a failed one leaves the tables alone. */
  lemma CommitOutcome(s: Sys, tx: TxId)
    requires tx in s.txs
    ensures var s', t := Next(s, Commit(tx)), s.txs[tx];
            if t.phase.Serving? || t.phase == Handling([]) then
              && tx !in s'.txs && s'.pushes == s.pushes && s'.notes == s.notes + t.notes
              && s'.table.Keys == s.table.Keys + t.writes.Keys
              && forall k :: k in s'.table ==> Some(s'.table[k]) == View(s, tx, k)
            else
              && s'.table == s.table && s'.notes == s.notes && s'.pushes == s.pushes
              && (tx in s'.txs <==> !t.phase.Aborted?)
  {}

  /** A rollback leaves the committed tables and everybody else alone and gives the locks back; what was
      pushed stays pushed. */
  lemma RollbackOutcome(s: Sys, tx: TxId)
    requires tx in s.txs
    ensures var s' := Next(s, Rollback(tx));
            && s'.table == s.table && s'.notes == s.notes && s'.pushes == s.pushes
            && tx !in s'.txs && s'.rolledBack == s.rolledBack + {tx}
            && (forall t :: t in s.txs && t != tx ==> t in s'.txs && s'.txs[t] == s.txs[t])
            && (forall k :: k in s'.locks <==> k in s.locks && s.locks[k] != tx)
  {}

  /** Handling the next dispatch pushes and writes one note to each user reached, and goes on to the rest
      of the batch, or dooms the transaction if a statement failed. Nothing is committed yet. */
  lemma HandleOutcome(s: Sys, tx: TxId, written: seq<UserId>, failed: bool, n: Note)
    requires tx in s.txs && s.txs[tx].phase.Handling? && s.txs[tx].phase.todo != [] && Distinct(written)
    ensures var s', t := Next(s, Do(tx, Handle(written, failed))), s.txs[tx];
            var one := if n.key == t.phase.todo[0] && n.tick == tx && n.user in written then 1 else 0;
            && s'.table == s.table && s'.notes == s.notes && tx in s'.txs
            && s'.pushes[n] == s.pushes[n] + one && s'.txs[tx].notes[n] == t.notes[n] + one
            && s'.txs[tx].writes == t.writes
            && s'.txs[tx].phase == if failed then Aborted else Handling(t.phase.todo[1..])
  {
    NotesForOnce(s.txs[tx].phase.todo[0], written, tx, n);
  }

  /** So a tick in which one handler hit a failing statement stores nothing, marks included. */
  lemma FailedTickStoresNothing(s: Sys, tx: TxId, written: seq<UserId>)
    requires tx in s.txs && s.txs[tx].phase.Handling? && s.txs[tx].phase.todo != [] && Distinct(written)
    ensures var s' := Next(Next(s, Do(tx, Handle(written, true))), Commit(tx));
            s'.table == s.table && s'.notes == s.notes && tx !in s'.txs && tx in s'.rolledBack
  {}

  /** Scheduling and committing: the row is pending and due from that time on. */
  lemma ScheduledIsDue(s: Sys, tx: TxId, k: Key, dueAt: Time)
    requires tx in s.txs && s.txs[tx].phase.Serving? && Free(s, tx, k)
    requires View(s, tx, k).Some? ==> View(s, tx, k).value.mark.None?
    ensures var s' := Next(Next(s, Do(tx, Schedule(k, dueAt))), Commit(tx));
            forall t :: Due(s'.table, {}, t, k) <==> dueAt <= t
  {
    RequestOutcome(s, tx, k, dueAt);
    CommitOutcome(Next(s, Do(tx, Schedule(k, dueAt))), tx);
  }

  /** The transaction has tombstoned the row and not committed yet. */
  ghost predicate OwnTombstone(s: Sys, tx: TxId, k: Key, d: Dispatch) {
    && tx in s.txs && (s.txs[tx].phase.Serving? || s.txs[tx].phase.Aborted?)
    && k in s.txs[tx].writes && s.txs[tx].writes[k] == d && d.mark.Some?
  }

  lemma OthersLeaveTx(s: Sys, a: Action, tx: TxId)
    requires tx in s.txs && tx in s.used && a.tx != tx
    ensures tx in Next(s, a).txs && Next(s, a).txs[tx] == s.txs[tx]
  {}

  lemma OwnStatementKeeps(s: Sys, tx: TxId, statement: Statement, k: Key, d: Dispatch)
    requires OwnTombstone(s, tx, k, d)
    ensures OwnTombstone(Execute(s, tx, statement), tx, k, d)
  {
    match statement
    case Schedule(_, _) =>
    case Insert(_, _) =>
    case Cancel(_) =>
    case Claim(_) =>
    case Handle(_, _) =>
  }

  /** No statement of its own takes the tombstone back, and nobody else can. */
  lemma TombstoneStaysPending(s: Sys, a: Action, tx: TxId, k: Key, d: Dispatch)
    requires Inv(s) && OwnTombstone(s, tx, k, d) && tx in Next(s, a).txs
    ensures OwnTombstone(Next(s, a), tx, k, d)
  {
    assert TxOk(s, tx);
    if a.tx != tx { OthersLeaveTx(s, a, tx); }
    else if a.Do? { OwnStatementKeeps(s, tx, a.statement, k, d); }
  }

  lemma {:induction false} GoneForGood(s: Sys, more: seq<Action>, tx: TxId)
    requires tx in s.used && tx !in s.txs
    ensures tx !in Run(s, more).txs
    decreases |more|
  {
    if more != [] {
      GoneOneStep(s, more[0], tx);
      GoneForGood(Next(s, more[0]), more[1..], tx);
    }
  }

  lemma GoneOneStep(s: Sys, a: Action, tx: TxId)
    requires tx in s.used && tx !in s.txs
    ensures tx in Next(s, a).used && tx !in Next(s, a).txs
  {}

  lemma UsedStays(s: Sys, a: Action, tx: TxId)
    requires tx in s.used
    ensures tx in Next(s, a).used
  {}

  lemma {:induction false} TombstoneStaysThrough(s: Sys, between: seq<Action>, tx: TxId, k: Key, d: Dispatch)
    requires Inv(s) && OwnTombstone(s, tx, k, d) && tx in Run(s, between).txs
    ensures OwnTombstone(Run(s, between), tx, k, d)
    decreases |between|
  {
    if between != [] {
      var s1 := Next(s, between[0]);
      NextKeeps(s, between[0]);
      assert TxOk(s, tx);
      UsedStays(s, between[0], tx);
      if tx !in s1.txs { GoneForGood(s1, between[1..], tx); }
      TombstoneStaysPending(s, between[0], tx, k, d);
      TombstoneStaysThrough(s1, between[1..], tx, k, d);
    }
  }

  /** Cancelling: a request that finds the row pending and cancels it, and later commits, whatever it
      and everybody else do in between, leaves its own tombstone under the key. From then on no
      notification for that dispatch is ever stored, and none had been before. */
  lemma CancelSilences(actions: seq<Action>, between: seq<Action>, more: seq<Action>, tx: TxId, k: Key)
    requires var s := Run(EMPTY, actions);
             && tx in s.txs && s.txs[tx].phase.Serving? && Free(s, tx, k)
             && View(s, tx, k).Some? && View(s, tx, k).value.mark.None?
    requires var s2 := Run(Next(Run(EMPTY, actions), Do(tx, Cancel(k))), between);
             tx in s2.txs && s2.txs[tx].phase.Serving?
    ensures var s := Run(EMPTY, actions);
            var s3 := Next(Run(Next(s, Do(tx, Cancel(k))), between), Commit(tx));
            var was := View(s, tx, k).value;
            && k in s3.table
            && s3.table[k] == Dispatch(was.dueAt, Some(Mark(s.txs[tx].now, tx, false)), was.attempts)
            && k in Run(s3, more).table && Run(s3, more).table[k] == s3.table[k]
            && forall n :: n in s3.notes || n in Run(s3, more).notes ==> n.key != k
  {
    var s := Run(EMPTY, actions);
    RunKeeps(EMPTY, actions);
    var was := View(s, tx, k).value;
    var d := Dispatch(was.dueAt, Some(Mark(s.txs[tx].now, tx, false)), was.attempts);
    var s1 := Next(s, Do(tx, Cancel(k)));
    RequestOutcome(s, tx, k, 0);
    assert TxOk(s, tx);
    NextKeeps(s, Do(tx, Cancel(k)));
    assert OwnTombstone(s1, tx, k, d);
    TombstoneStaysThrough(s1, between, tx, k, d);
    var s2 := Run(s1, between);
    RunKeeps(s1, between);
    CommitOutcome(s2, tx);
    NextKeeps(s2, Commit(tx));
    var s3 := Next(s2, Commit(tx));
    RunFreezes(s3, more, k);
    RunKeeps(s3, more);
    forall n | n in s3.notes || n in Run(s3, more).notes ensures n.key != k {
      if n in s3.notes { assert NoteOk(s3, n); } else { assert NoteOk(Run(s3, more), n); }
    }
  }

  // ----- A push can repeat -----

  lemma ClaimOne(s: Sys, tx: TxId, k: Key)
    requires s.table == map[k := Dispatch(0, None, 0)] && s.locks == map[]
        && s.txs == map[tx := Tx(0, Polling, map[], multiset{})]
    ensures var t := Tx(0, Handling([k]), map[k := Dispatch(0, Some(Mark(0, tx, true)), 1)], multiset{});
            Next(s, Do(tx, Claim([k]))) == s.(locks := map[k := tx], txs := map[tx := t])
  {
    assert s.locks.Keys == {};
    assert IsBatch(s.table, {}, 0, [k]);
    var s' := ClaimAll(s, tx, [k]);
    assert s'.txs[tx].writes == map[k := Dispatch(0, Some(Mark(0, tx, true)), 1)];
    assert s'.locks == map[k := tx];
  }

  lemma HandleOne(s: Sys, tx: TxId, k: Key, user: UserId, writes: Table)
    requires s.txs == map[tx := Tx(0, Handling([k]), writes, multiset{})]
    ensures var note := multiset{Note(k, user, tx)};
            Next(s, Do(tx, Handle([user], false)))
              == s.(pushes := s.pushes + note, txs := map[tx := Tx(0, Handling([]), writes, note)])
  {
    assert NotesFor(k, [user], tx) == multiset{Note(k, user, tx)};
    assert multiset{} + multiset{Note(k, user, tx)} == multiset{Note(k, user, tx)};
    assert [k][1..] == [];
  }

  lemma Run3(s: Sys, a: seq<Action>)
    requires |a| == 3
    ensures Run(s, a) == Next(Next(Next(s, a[0]), a[1]), a[2])
  {
    var s1 := Next(s, a[0]);
    var s2 := Next(s1, a[1]);
    assert Run(s, a) == Run(s1, a[1..]);
    assert Run(s1, a[1..]) == Run(s2, a[1..][1..]);
    assert a[1..][1..] == [a[2]];
    assert Run(s2, [a[2]]) == Run(Next(s2, a[2]), [a[2]][1..]);
  }

  lemma Run1(s: Sys, a: Action)
    ensures Run(s, [a]) == Next(s, a)
  {
    assert Run(s, [a]) == Run(Next(s, a), [a][1..]);
  }

  lemma Run2(s: Sys, a: seq<Action>)
    requires |a| == 2
    ensures Run(s, a) == Next(Next(s, a[0]), a[1])
  {
    var s1 := Next(s, a[0]);
    assert Run(s, a) == Run(s1, a[1..]);
    assert Run(s1, a[1..]) == Run(Next(s1, a[1]), a[1..][1..]);
  }

  lemma Run4(s: Sys, a: seq<Action>)
    requires |a| == 4
    ensures Run(s, a) == Next(Next(Next(Next(s, a[0]), a[1]), a[2]), a[3])
  {
    Run3(Next(s, a[0]), a[1..]);
  }

  lemma {:induction false} RunAppend(s: Sys, a: seq<Action>, b: seq<Action>)
    ensures Run(s, a + b) == Run(Run(s, a), b)
    decreases |a|
  {
    if a == [] {
      assert a + b == b;
    } else {
      assert (a + b)[1..] == a[1..] + b;
      RunAppend(Next(s, a[0]), a[1..], b);
    }
  }

  /** One due row and nothing else going on. */
  ghost predicate OneDue(s: Sys, k: Key) {
    s.table == map[k := Dispatch(0, None, 0)] && s.locks == map[] && s.txs == map[]
  }

  function TickRun(tx: TxId, k: Key, user: UserId, commits: bool): seq<Action> {
    [Start(tx, 0, true), Do(tx, Claim([k])), Do(tx, Handle([user], false)),
     if commits then Commit(tx) else Rollback(tx)]
  }

  lemma ScheduleOnce(k: Key) returns (s: Sys)
    ensures s == Run(EMPTY, [Start(1, 0, false), Do(1, Schedule(k, 0)), Commit(1)])
    ensures OneDue(s, k) && s.used == {1} && s.notes == s.pushes == multiset{}
  {
    var a := [Start(1, 0, false), Do(1, Schedule(k, 0)), Commit(1)];
    var s1 := Next(EMPTY, a[0]);
    var s2 := Next(s1, a[1]);
    s := Next(s2, a[2]);
    Run3(EMPTY, a);
    assert s2 == Write(s1, 1, k, Dispatch(0, None, 0));
  }

  /** The tick after its one handler. */
  function AfterHandler(s: Sys, tx: TxId, k: Key, user: UserId): Sys {
    var writes := map[k := Dispatch(0, Some(Mark(0, tx, true)), 1)];
    var note := multiset{Note(k, user, tx)};
    s.(pushes := s.pushes + note, locks := map[k := tx], used := s.used + {tx},
       txs := map[tx := Tx(0, Handling([]), writes, note)])
  }

  lemma TickHandles(s: Sys, tx: TxId, k: Key, user: UserId)
    requires OneDue(s, k) && tx !in s.used
    ensures Next(Next(Next(s, Start(tx, 0, true)), Do(tx, Claim([k]))), Do(tx, Handle([user], false)))
         == AfterHandler(s, tx, k, user)
  {
    var s1 := Begin(s, tx, 0, true);
    assert s1.txs == map[tx := Tx(0, Polling, map[], multiset{})];
    ClaimOne(s1, tx, k);
    var s2 := Next(s1, Do(tx, Claim([k])));
    HandleOne(s2, tx, k, user, s2.txs[tx].writes);
  }

  lemma TickOnce(s: Sys, tx: TxId, k: Key, user: UserId, commits: bool)
    requires OneDue(s, k) && tx !in s.used
    ensures var s' := Run(s, TickRun(tx, k, user, commits));
            && s'.pushes == s.pushes + multiset{Note(k, user, tx)} && s'.used == s.used + {tx}
            && (if commits then s'.notes == s.notes + multiset{Note(k, user, tx)}
                else OneDue(s', k) && s'.notes == s.notes)
  {
    TickHandles(s, tx, k, user);
    Run4(s, TickRun(tx, k, user, commits));
    var s3 := AfterHandler(s, tx, k, user);
    assert Next(s3, Commit(tx)) == Publish(s3, tx) && Next(s3, Rollback(tx)) == Undo(s3, tx);
    assert Undo(s3, tx).locks == map[] && Undo(s3, tx).txs == map[];
  }

  /** It does happen: a tick that pushed and then rolled back leaves the row pending, and the
      next tick pushes the same reminder to the same user again. */
  lemma PushCanRepeat(k: Key, user: UserId)
    ensures exists actions ::
              var s := Run(EMPTY, actions);
              Note(k, user, 2) in s.pushes && Note(k, user, 3) in s.pushes && s.notes == multiset{Note(k, user, 3)}
  {
    var a := [Start(1, 0, false), Do(1, Schedule(k, 0)), Commit(1)];
    var b, c := TickRun(2, k, user, false), TickRun(3, k, user, true);
    var s := ScheduleOnce(k);
    TickOnce(s, 2, k, user, false);
    TickOnce(Run(s, b), 3, k, user, true);
    RunAppend(EMPTY, a, b + c);
    RunAppend(s, b, c);
    assert Run(EMPTY, a + (b + c)) == Run(Run(s, b), c);
  }

  // ----- A tick on its own -----

  ghost predicate IsEarliest(t: Table, ks: set<Key>, m: Key)
    requires ks <= t.Keys
  {
    m in ks && forall k :: k in ks ==> t[m].dueAt <= t[k].dueAt
  }

  lemma EarliestExists(t: Table, ks: set<Key>)
    requires ks <= t.Keys && ks != {}
    ensures exists m :: IsEarliest(t, ks, m)
  {
    var m :| m in ks;
    var rest := ks - {m};
    if rest == {} {
      assert ks == {m};
      assert IsEarliest(t, ks, m);
    } else {
      EarliestExists(t, rest);
      var r :| IsEarliest(t, rest, r);
      assert forall k :: k in ks ==> k == m || k in rest;
      assert IsEarliest(t, ks, if t[r].dueAt < t[m].dueAt then r else m);
    }
  }

  ghost function TakeEarliest(t: Table, ks: set<Key>, limit: nat): (batch: seq<Key>)
    requires ks <= t.Keys
    ensures Distinct(batch) && |batch| <= limit && forall k :: k in batch ==> k in ks
    ensures forall k, j :: k in batch && j in ks && j !in batch ==> t[k].dueAt <= t[j].dueAt
    ensures |batch| < limit ==> forall k :: k in ks ==> k in batch
    decreases limit
  {
    if limit == 0 || ks == {} then [] else
      EarliestExists(t, ks);
      var m :| IsEarliest(t, ks, m);
      [m] + TakeEarliest(t, ks - {m}, limit - 1)
  }

  /** The claiming query always has an answer. */
  lemma BatchExists(t: Table, locked: set<Key>, now: Time)
    ensures exists batch :: IsBatch(t, locked, now, batch)
  {
    var due := set k | k in t && Due(t, locked, now, k);
    var batch := TakeEarliest(t, due, BATCH_SIZE);
    assert IsBatch(t, locked, now, batch);
  }

  function Claimed(t: Table, batch: seq<Key>, now: Time, tick: TxId): Table
    requires forall k :: k in batch ==> k in t
  {
    map k | k in t :: if k in batch then ClaimRow(t[k], now, tick) else t[k]
  }

  /** What a claim does to the table: it takes rows that were pending and due, once and for all,
      and touches nothing else; only a full batch leaves something due behind. */
  lemma ClaimMeans(t: Table, batch: seq<Key>, now: Time, tick: TxId)
    requires IsBatch(t, {}, now, batch)
    ensures var t' := Claimed(t, batch, now, tick);
            && t'.Keys == t.Keys
            && (forall k :: k in batch ==>
                  && k in t && t[k].mark.None? && t[k].dueAt <= now
                  && t'[k] == Dispatch(t[k].dueAt, Some(Mark(now, tick, true)), t[k].attempts + 1)
                  && forall later :: !Due(t', {}, later, k))
            && (forall k :: k in t && k !in batch ==> t'[k] == t[k])
            && |batch| <= 100 && (|batch| < 100 ==> forall k :: !Due(t', {}, now, k))
            && (forall k, j :: k in batch && j in t && j !in batch && t[j].mark.None? && t[j].dueAt <= now ==>
                  t[k].dueAt <= t[j].dueAt)
  {
    assert forall k :: k in batch ==> Due(t, {}, now, k);
    var t' := Claimed(t, batch, now, tick);
    if |batch| < BATCH_SIZE {
      forall k ensures !Due(t', {}, now, k) { assert Due(t, {}, now, k) ==> k in batch; }
    }
    forall j | j in t && t[j].mark.None? && t[j].dueAt <= now ensures Due(t, {}, now, j) {}
  }

  /** Whom a handler writes to, per dispatch. */
  type Recipients = map<Key, seq<UserId>>

  function UsersOf(r: Recipients, k: Key): seq<UserId> {
    if k in r then r[k] else []
  }

  function BatchNotes(batch: seq<Key>, r: Recipients, tick: TxId): multiset<Note> {
    if batch == [] then multiset{} else
      var last := |batch| - 1;
      BatchNotes(batch[..last], r, tick) + NotesFor(batch[last], UsersOf(r, batch[last]), tick)
  }

  /** A tick writes one row to each recipient of each dispatch in its batch, and no other. */
  lemma {:induction false} BatchNotesOnce(batch: seq<Key>, r: Recipients, tick: TxId, n: Note)
    requires Distinct(batch) && forall k :: k in batch ==> Distinct(UsersOf(r, k))
    ensures BatchNotes(batch, r, tick)[n]
        == (if n.key in batch && n.tick == tick && n.user in UsersOf(r, n.key) then 1 else 0)
  {
    if batch != [] {
      var last := |batch| - 1;
      assert batch == batch[..last] + [batch[last]];
      assert batch[last] !in batch[..last];
      BatchNotesOnce(batch[..last], r, tick, n);
      NotesForOnce(batch[last], UsersOf(r, batch[last]), tick, n);
    }
  }

  class DispatchTable {
    var rows: Table
    var notes: multiset<Note>

    constructor ()
      ensures rows == map[] && notes == multiset{}
    {
      rows, notes := map[], multiset{};
    }

    /** INSERT ... ON CONFLICT DO UPDATE ... WHERE dispatched_at IS NULL. */
    method Schedule(k: Key, dueAt: Time)
      modifies this
      ensures k in rows && rows == old(rows)[k := rows[k]] && notes == old(notes)
      ensures k in old(rows) && old(rows)[k].mark.Some? ==> rows == old(rows)
      ensures !(k in old(rows) && old(rows)[k].mark.Some?) ==>
                rows[k] == Dispatch(dueAt, None, if k in old(rows) then old(rows)[k].attempts else 0)
    {
      if k !in rows {
        rows := rows[k := Dispatch(dueAt, None, 0)];
      } else if rows[k].mark.None? {
        rows := rows[k := rows[k].(dueAt := dueAt)];
      }
    }

    method Cancel(k: Key, now: Time, tx: TxId)
      modifies this
      ensures notes == old(notes) && rows.Keys == old(rows.Keys)
      ensures k in old(rows) && old(rows)[k].mark.None? ==>
                && rows[k] == Dispatch(old(rows)[k].dueAt, Some(Mark(now, tx, false)), old(rows)[k].attempts)
                && forall later :: !Due(rows, {}, later, k)
      ensures k in old(rows) && old(rows)[k].mark.Some? ==> rows[k] == old(rows)[k]
      ensures forall j :: j in rows && j != k ==> rows[j] == old(rows)[j]
    {
      if k in rows && rows[k].mark.None? {
        rows := rows[k := rows[k].(mark := Some(Mark(now, tx, false)))];
      }
    }

    /** `batch` is what the inner SELECT returned: the rows were pending and due, now carry the
        mark of this tick and one more attempt, and will not be due again at any time; no other
        row has changed, and unless the batch is full nothing that was due is left. */
    method ClaimBatch(now: Time, tick: TxId, batch: seq<Key>)
      requires IsBatch(rows, {}, now, batch)
      modifies this
      ensures rows == Claimed(old(rows), batch, now, tick) && notes == old(notes) && rows.Keys == old(rows.Keys)
      ensures forall k :: k in batch ==>
                && k in old(rows) && old(rows)[k].mark.None? && old(rows)[k].dueAt <= now
                && rows[k] == Dispatch(old(rows)[k].dueAt, Some(Mark(now, tick, true)), old(rows)[k].attempts + 1)
                && forall later :: !Due(rows, {}, later, k)
      ensures forall k :: k in rows && k !in batch ==> rows[k] == old(rows)[k]
      ensures |batch| <= 100 && (|batch| < 100 ==> forall k :: !Due(rows, {}, now, k))
      ensures forall k, j :: k in batch && j !in batch && Due(old(rows), {}, now, j) ==>
                old(rows)[k].dueAt <= old(rows)[j].dueAt
    {
      ClaimMeans(rows, batch, now, tick);
      rows := map k | k in rows :: if k in batch then ClaimRow(rows[k], now, tick) else rows[k];
    }

    /** The loop over the batch. A database error is caught and the loop goes on, but the
        transaction is doomed. */
    method HandleBatch(tick: TxId, batch: seq<Key>, recipients: Recipients, failing: set<Key>) returns (aborted: bool)
      modifies `notes
      ensures aborted <==> exists k :: k in batch && k in failing
      ensures !aborted ==> notes == old(notes) + BatchNotes(batch, recipients, tick)
    {
      aborted := false;
      for i := 0 to |batch|
        invariant aborted <==> exists k :: k in batch[..i] && k in failing
        invariant !aborted ==> notes == old(notes) + BatchNotes(batch[..i], recipients, tick)
      {
        assert batch[..i + 1] == batch[..i] + [batch[i]];
        assert batch[..i + 1][..i] == batch[..i];
        if batch[i] in failing {
          aborted := true;
        } else if !aborted {
          notes := notes + NotesFor(batch[i], UsersOf(recipients, batch[i]), tick);
        }
      }
      assert batch[..|batch|] == batch;
    }

    /** The whole tick; `failing` are the dispatches whose handler hits a database error. COMMIT
        of a doomed transaction rolls everything back. */
    method RunDueDispatches(now: Time, tick: TxId, batch: seq<Key>, recipients: Recipients, failing: set<Key>)
      requires IsBatch(rows, {}, now, batch)
      modifies this
      ensures (exists k :: k in batch && k in failing) ==> rows == old(rows) && notes == old(notes)
      ensures (forall k :: k in batch ==> k !in failing) ==>
                && rows == Claimed(old(rows), batch, now, tick)
                && notes == old(notes) + BatchNotes(batch, recipients, tick)
    {
      var rowsBefore, notesBefore := rows, notes;
      ClaimBatch(now, tick, batch);
      var aborted := HandleBatch(tick, batch, recipients, failing);
      if aborted {
        rows, notes := rowsBefore, notesBefore;
      }
    }
  }

  // ----- The tick on its own is a run of the protocol -----

  function HandleAll(tx: TxId, todo: seq<Key>, r: Recipients): seq<Action> {
    if todo == [] then [] else [Do(tx, Handle(UsersOf(r, todo[0]), false))] + HandleAll(tx, todo[1..], r)
  }

  /** The notes of a batch, first dispatch first. */
  function NotesAhead(todo: seq<Key>, r: Recipients, tick: TxId): multiset<Note> {
    if todo == [] then multiset{} else NotesFor(todo[0], UsersOf(r, todo[0]), tick) + NotesAhead(todo[1..], r, tick)
  }

  lemma {:induction false} NotesAheadOnce(todo: seq<Key>, r: Recipients, tick: TxId, n: Note)
    requires Distinct(todo) && forall k :: k in todo ==> Distinct(UsersOf(r, k))
    ensures NotesAhead(todo, r, tick)[n]
        == (if n.key in todo && n.tick == tick && n.user in UsersOf(r, n.key) then 1 else 0)
  {
    if todo != [] {
      assert todo == [todo[0]] + todo[1..];
      assert todo[0] !in todo[1..];
      NotesAheadOnce(todo[1..], r, tick, n);
      NotesForOnce(todo[0], UsersOf(r, todo[0]), tick, n);
    }
  }

  function Handled(s: Sys, tx: TxId, notes: multiset<Note>): Sys
    requires tx in s.txs
  {
    s.(pushes := s.pushes + notes,
       txs := s.txs[tx := s.txs[tx].(notes := s.txs[tx].notes + notes, phase := Handling([]))])
  }

  lemma HandledOneMore(s: Sys, tx: TxId, users: seq<UserId>, ahead: multiset<Note>)
    requires tx in s.txs && s.txs[tx].phase.Handling? && s.txs[tx].phase.todo != []
    ensures Handled(HandleNext(s, tx, users, false), tx, ahead)
         == Handled(s, tx, NotesFor(s.txs[tx].phase.todo[0], users, tx) + ahead)
  {
    var s1, now := HandleNext(s, tx, users, false), NotesFor(s.txs[tx].phase.todo[0], users, tx);
    assert s.pushes + now + ahead == s.pushes + (now + ahead);
    assert s.txs[tx].notes + now + ahead == s.txs[tx].notes + (now + ahead);
    assert Handled(s1, tx, ahead).txs == Handled(s, tx, now + ahead).txs;
  }

  lemma HandledNothing(s: Sys, tx: TxId)
    requires tx in s.txs && s.txs[tx].phase == Handling([])
    ensures Handled(s, tx, multiset{}) == s
  {
    assert s.txs[tx].notes + multiset{} == s.txs[tx].notes;
    assert s.pushes + multiset{} == s.pushes;
    assert s.txs[tx := s.txs[tx]] == s.txs;
  }

  lemma {:induction false} HandleAllRuns(s: Sys, tx: TxId, r: Recipients)
    requires tx in s.txs && s.txs[tx].phase.Handling?
    requires forall k :: k in s.txs[tx].phase.todo ==> Distinct(UsersOf(r, k))
    ensures var todo := s.txs[tx].phase.todo;
            Run(s, HandleAll(tx, todo, r)) == Handled(s, tx, NotesAhead(todo, r, tx))
    decreases |s.txs[tx].phase.todo|
  {
    var todo := s.txs[tx].phase.todo;
    if todo == [] {
      HandledNothing(s, tx);
    } else {
      var users := UsersOf(r, todo[0]);
      var s1 := HandleNext(s, tx, users, false);
      assert todo[0] in todo && Next(s, Do(tx, Handle(users, false))) == s1;
      HandleAllRuns(s1, tx, r);
      assert HandleAll(tx, todo, r)[1..] == HandleAll(tx, todo[1..], r);
      HandledOneMore(s, tx, users, NotesAhead(todo[1..], r, tx));
    }
  }

  lemma SameNotes(batch: seq<Key>, r: Recipients, tick: TxId)
    requires Distinct(batch) && forall k :: k in batch ==> Distinct(UsersOf(r, k))
    ensures NotesAhead(batch, r, tick) == BatchNotes(batch, r, tick)
  {
    forall n ensures BatchNotes(batch, r, tick)[n] == NotesAhead(batch, r, tick)[n] {
      BatchNotesOnce(batch, r, tick, n);
      NotesAheadOnce(batch, r, tick, n);
    }
  }

  lemma PublishHandled(s: Sys, tx: TxId, now: Time, batch: seq<Key>, notes: multiset<Note>)
    requires s.txs == map[tx := Tx(now, Polling, map[], multiset{})] && s.locks == map[]
    requires forall k :: k in batch ==> k in s.table
    ensures var s' := Publish(Handled(ClaimAll(s, tx, batch), tx, notes), tx);
            && s'.table == Claimed(s.table, batch, now, tx) && s'.notes == s.notes + notes
            && s'.txs == map[] && s'.locks == map[]
  {
    var s3 := Handled(ClaimAll(s, tx, batch), tx, notes);
    assert s3.txs[tx].notes == multiset{} + notes == notes;
    assert s3.txs.Keys == {tx};
    assert forall k :: k in s3.locks ==> s3.locks[k] == tx;
  }

  lemma CommitHandled(s: Sys, tx: TxId)
    requires tx in s.txs && s.txs[tx].phase == Handling([])
    ensures Run(s, [Commit(tx)]) == Publish(s, tx)
  {
    Run1(s, Commit(tx));
  }

  /** From the claim to the commit. */
  lemma ClaimedTickRuns(s: Sys, tx: TxId, now: Time, batch: seq<Key>, r: Recipients)
    requires s.txs == map[tx := Tx(now, Polling, map[], multiset{})] && s.locks == map[]
    requires Distinct(batch) && forall k :: k in batch ==> k in s.table && Distinct(UsersOf(r, k))
    ensures var s' := Run(ClaimAll(s, tx, batch), HandleAll(tx, batch, r) + [Commit(tx)]);
            && s'.table == Claimed(s.table, batch, now, tx) && s'.notes == s.notes + BatchNotes(batch, r, tx)
            && s'.txs == map[] && s'.locks == map[]
  {
    var s2, notes := ClaimAll(s, tx, batch), NotesAhead(batch, r, tx);
    HandleAllRuns(s2, tx, r);
    SameNotes(batch, r, tx);
    RunAppend(s2, HandleAll(tx, batch, r), [Commit(tx)]);
    PublishHandled(s, tx, now, batch, notes);
    CommitHandled(Handled(s2, tx, notes), tx);
  }

  /** `RunDueDispatches` computes what the protocol does when nobody interferes with the tick. */
  lemma TickRefinesProtocol(s: Sys, tx: TxId, now: Time, batch: seq<Key>, r: Recipients)
    requires tx !in s.used && s.txs == map[] && s.locks == map[] && IsBatch(s.table, {}, now, batch)
    requires forall k :: k in batch ==> Distinct(UsersOf(r, k))
    ensures var s' := Run(s, [Start(tx, now, true), Do(tx, Claim(batch))] + (HandleAll(tx, batch, r) + [Commit(tx)]));
            && s'.table == Claimed(s.table, batch, now, tx)
            && s'.notes == s.notes + BatchNotes(batch, r, tx)
            && s'.txs == map[] && s'.locks == map[]
  {
    var first, rest := [Start(tx, now, true), Do(tx, Claim(batch))], HandleAll(tx, batch, r) + [Commit(tx)];
    var s1 := Begin(s, tx, now, true);
    assert s1.txs == map[tx := s1.txs[tx]];
    assert s1.locks.Keys == {};
    RunAppend(s, first, rest);
    Run2(s, first);
    assert Run(s, first) == ClaimAll(s1, tx, batch);
    ClaimedTickRuns(s1, tx, now, batch, r);
  }
}
