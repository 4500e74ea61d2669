/** Whom the reminder handlers write to. They read the current rows when they fire, so what
    `Events` and `Tasks` keep about those rows decides that nobody is written to twice. */
module Reminders {
  import opened Common
  import opened Accounts
  import Events
  import Tasks
  import Outbox

  /** `EventReminderHandler.handle`: one per RSVP row, nobody once the event is over or off. */
  function EventRecipients(s: Events.State, e: Events.EventId): multiset<UserId> {
    if e in s.events && Events.Live(s.events[e]) then Events.RowAt(s, e).going else multiset{}
  }

  /** `TaskDueReminderHandler.handle`: the active assignee `findFirst` returns. */
  function TaskRecipients(s: Tasks.State, task: Tasks.TaskId): seq<UserId> {
    if task !in s.tasks || s.tasks[task].status == Tasks.Completed then [] else
      match First(Tasks.ActiveOn(s, task))
      case None => []
      case Some(a) => [s.assignments[a].volunteer]
  }

  lemma {:induction false} OnceEach(users: seq<UserId>)
    requires forall u :: multiset(users)[u] <= 1
    ensures Distinct(users)
  {
    if users != [] {
      assert users == [users[0]] + users[1..];
      forall u ensures multiset(users[1..])[u] <= 1 { assert multiset(users)[u] <= 1; }
      OnceEach(users[1..]);
      assert multiset(users)[users[0]] == 1 + multiset(users[1..])[users[0]];
      assert users[0] !in users[1..];
    }
  }

  /** After any run of the event services the handler writes to each user with an RSVP once,
      and to nobody else. */
  lemma EventReminderReachesEachOnce(s: Events.State, ops: seq<Events.Op>, e: Events.EventId, users: seq<UserId>)
    requires Events.Valid(s) && multiset(users) == EventRecipients(Events.Run(s, ops), e)
    ensures Distinct(users)
    ensures var s' := Events.Run(s, ops);
            forall u :: u in users <==> e in s'.events && Events.Live(s'.events[e]) && u in Events.RowAt(s', e).going
  {
    Events.RunKeepsValid(s, ops);
    var s' := Events.Run(s, ops);
    forall u ensures multiset(users)[u] <= 1 {
      if e in s'.events { assert Events.Bounded(Events.RowAt(s', e)); }
    }
    OnceEach(users);
    assert forall u :: u in users <==> u in multiset(users);
  }

  /** After any run of the task services the handler writes to whoever actively holds the open
      task, and to nobody else; there is at most one such user. */
  lemma TaskReminderReachesTheHolder(s: Tasks.State, ops: seq<Tasks.Op>, task: Tasks.TaskId)
    requires Tasks.Valid(s)
    ensures var s' := Tasks.Run(s, ops);
            var users := TaskRecipients(s', task);
            && |users| <= 1
            && forall u :: u in users <==>
                 task in s'.tasks && s'.tasks[task].status != Tasks.Completed && Tasks.Holds(s', u, task)
  {
    Tasks.RunKeepsValid(s, ops);
    var s' := Tasks.Run(s, ops);
    if task in s'.tasks && s'.tasks[task].status != Tasks.Completed {
      var first := First(Tasks.ActiveOn(s', task));
      forall u ensures u in TaskRecipients(s', task) <==> Tasks.Holds(s', u, task) {
        if first.Some? && s'.assignments[first.value].volunteer == u {
          assert first.value in Tasks.RowsOf(s', task, u);
        }
        if Tasks.Holds(s', u, task) {
          var a :| a in Tasks.RowsOf(s', task, u) && s'.assignments[a].Active();
          assert a in Tasks.ActiveOn(s', task);
          assert a == first.value;
        }
      }
    }
  }

  /** So both handlers meet the condition under which the outbox stores one row per user. */
  lemma HandlersWriteOncePerUser(es: Events.State, ts: Tasks.State, k: Outbox.Key, users: seq<UserId>,
      tick: Outbox.TxId, n: Outbox.Note)
    requires Events.Valid(es) && Tasks.Valid(ts)
    requires k.kind.EventReminder? ==> multiset(users) <= EventRecipients(es, k.entity)
    requires k.kind.TaskDueReminder? ==> multiset(users) <= multiset(TaskRecipients(ts, k.entity))
    requires k.kind.IncidentProximity? ==> Distinct(users)
    ensures Distinct(users) && Outbox.NotesFor(k, users, tick)[n] <= 1
  {
    forall u | !k.kind.IncidentProximity? ensures multiset(users)[u] <= 1 {
      if k.kind.EventReminder? && k.entity in es.events { assert Events.Bounded(Events.RowAt(es, k.entity)); }
    }
    if !k.kind.IncidentProximity? { OnceEach(users); }
    Outbox.NotesForOnce(k, users, tick, n);
  }
}
