/** Concurrent claims of pooled incidents. A claim reads the incident without a lock, checks, and
    then writes with `UPDATE ... WHERE organisation_id IS NULL`, which waits for the row lock and
    looks at the latest committed row again. */
module ClaimProtocol {
  import opened Common

  type IncidentId = nat
  type OrgId = nat
  type TxId = nat

  datatype Incident = Incident(org: Option<OrgId>, version: nat)

  datatype Claim = Claim(incident: IncidentId, org: OrgId, inArea: bool)

  datatype Pc = Begun | Checked | Updated

  datatype Tx = Tx(claim: Claim, pc: Pc)

  datatype Outcome = Won | NotFound | AlreadyClaimed | OutsideServiceArea | JustClaimed

  datatype Answer = Answer(claim: Claim, outcome: Outcome)

  datatype Sys = Sys(
    incidents: map<IncidentId, Incident>,
    locks: map<IncidentId, TxId>,
    txs: map<TxId, Tx>,
    answers: map<TxId, Answer>)

  datatype Action = Start(tx: TxId, claim: Claim) | Advance(tx: TxId) | Crash(tx: TxId)

  function Release(s: Sys, tx: TxId): Sys {
    s.(locks := map i | i in s.locks && s.locks[i] != tx :: s.locks[i], txs := s.txs - {tx})
  }

  function Reply(s: Sys, tx: TxId, outcome: Outcome): Sys
    requires tx in s.txs
  {
    Release(s, tx).(answers := s.answers[tx := Answer(s.txs[tx].claim, outcome)])
  }

  function Goto(s: Sys, tx: TxId, pc: Pc): Sys
    requires tx in s.txs
  {
    s.(txs := s.txs[tx := s.txs[tx].(pc := pc)])
  }

  predicate Blocked(s: Sys, tx: TxId)
    requires tx in s.txs
  {
    s.txs[tx].pc.Checked? && s.txs[tx].claim.incident in s.locks
  }

  function Publish(s: Sys, tx: TxId): Sys
    requires tx in s.txs && s.txs[tx].claim.incident in s.incidents
  {
    var q := s.txs[tx].claim;
    var claimed := Incident(Some(q.org), s.incidents[q.incident].version + 1);
    Reply(s, tx, Won).(incidents := s.incidents[q.incident := claimed])
  }

  function Statement(s: Sys, tx: TxId): Sys
    requires tx in s.txs
  {
    var q := s.txs[tx].claim;
    if q.incident !in s.incidents then Reply(s, tx, NotFound)
    else
      match s.txs[tx].pc
      case Begun =>
        if s.incidents[q.incident].org.Some? then Reply(s, tx, AlreadyClaimed)
        else if !q.inArea then Reply(s, tx, OutsideServiceArea)
        else Goto(s, tx, Checked)
      case Checked =>
        if s.incidents[q.incident].org.Some? then Reply(s, tx, JustClaimed)
        else Goto(s, tx, Updated).(locks := s.locks[q.incident := tx])
      case Updated => Publish(s, tx)
  }

  /** Transaction numbers are not used twice. */
  function Next(s: Sys, a: Action): Sys {
    match a
    case Start(tx, q) => if tx in s.txs || tx in s.answers then s else s.(txs := s.txs[tx := Tx(q, Begun)])
    case Advance(tx) => if tx !in s.txs || Blocked(s, tx) then s else Statement(s, tx)
    case Crash(tx) => Release(s, tx)
  }

  function Run(s: Sys, actions: seq<Action>): Sys
    decreases |actions|
  {
    if actions == [] then s else Run(Next(s, actions[0]), actions[1..])
  }

  function Initial(incidents: map<IncidentId, Incident>): Sys {
    Sys(incidents, map[], map[], map[])
  }

  // ----- The invariant -----

  ghost predicate TxOk(s: Sys, tx: TxId)
    requires tx in s.txs
  {
    var q := s.txs[tx].claim;
    && tx !in s.answers
    && (s.txs[tx].pc.Updated? ==>
          && q.inArea && q.incident in s.incidents && s.incidents[q.incident].org.None?
          && q.incident in s.locks && s.locks[q.incident] == tx)
    && (s.txs[tx].pc.Checked? ==> q.inArea)
  }

  ghost predicate LockOk(s: Sys, i: IncidentId)
    requires i in s.locks
  {
    s.locks[i] in s.txs && s.txs[s.locks[i]].claim.incident == i && s.txs[s.locks[i]].pc.Updated?
  }

  ghost predicate IsWinner(s: Sys, tx: TxId, i: IncidentId) {
    tx in s.answers && s.answers[tx].outcome == Won && s.answers[tx].claim.incident == i
  }

  /** The row against its initial version: untouched, or claimed once, by its only winner. */
  ghost predicate RowOk(init: Incident, s: Sys, i: IncidentId)
    requires i in s.incidents
  {
    var row := s.incidents[i];
    if row == init then forall tx :: !IsWinner(s, tx, i)
    else
      && init.org.None? && row.version == init.version + 1
      && exists tx :: IsWinner(s, tx, i) && s.answers[tx].claim.inArea && row.org == Some(s.answers[tx].claim.org)
                      && forall other :: IsWinner(s, other, i) ==> other == tx
  }

  ghost predicate Inv(init: map<IncidentId, Incident>, s: Sys) {
    && s.incidents.Keys == init.Keys
    && (forall tx :: tx in s.txs ==> TxOk(s, tx))
    && (forall i :: i in s.locks ==> LockOk(s, i))
    && (forall i :: i in s.incidents ==> RowOk(init[i], s, i))
  }

  /** Rows do not care about answers that are not wins. */
  lemma RowFrame(init: Incident, s: Sys, s': Sys, i: IncidentId)
    requires i in s.incidents && RowOk(init, s, i) && i in s'.incidents && s'.incidents[i] == s.incidents[i]
    requires forall tx :: IsWinner(s, tx, i) <==> IsWinner(s', tx, i)
    requires forall tx :: IsWinner(s, tx, i) ==> tx in s'.answers && s'.answers[tx] == s.answers[tx]
    ensures RowOk(init, s', i)
  {
    if s.incidents[i] != init {
      var tx :| IsWinner(s, tx, i) && s.answers[tx].claim.inArea && s.incidents[i].org == Some(s.answers[tx].claim.org)
                && forall other :: IsWinner(s, other, i) ==> other == tx;
      assert IsWinner(s', tx, i);
    }
  }

  lemma ReleaseKeeps(init: map<IncidentId, Incident>, s: Sys, tx: TxId)
    requires Inv(init, s)
    ensures Inv(init, Release(s, tx))
  {
    var s' := Release(s, tx);
    forall t | t in s'.txs ensures TxOk(s', t) { assert TxOk(s, t); }
    forall i | i in s'.locks ensures LockOk(s', i) { assert LockOk(s, i); }
    forall i | i in s'.incidents ensures RowOk(init[i], s', i) { RowFrame(init[i], s, s', i); }
  }

  lemma LoseKeeps(init: map<IncidentId, Incident>, s: Sys, tx: TxId, outcome: Outcome)
    requires Inv(init, s) && tx in s.txs && outcome != Won
    ensures Inv(init, Reply(s, tx, outcome))
  {
    var s' := Reply(s, tx, outcome);
    assert TxOk(s, tx);
    forall t | t in s'.txs ensures TxOk(s', t) { assert TxOk(s, t); }
    forall i | i in s'.locks ensures LockOk(s', i) { assert LockOk(s, i); }
    forall i | i in s'.incidents ensures RowOk(init[i], s', i) { RowFrame(init[i], s, s', i); }
  }

  lemma MoveKeeps(init: map<IncidentId, Incident>, s: Sys, s': Sys, tx: TxId)
    requires Inv(init, s) && tx in s.txs && s.txs[tx].claim.inArea
    requires (s' == Goto(s, tx, Checked) && s.txs[tx].pc.Begun?)
             || (s' == Goto(s, tx, Updated).(locks := s.locks[s.txs[tx].claim.incident := tx])
                 && s.txs[tx].claim.incident in s.incidents && s.incidents[s.txs[tx].claim.incident].org.None?
                 && s.txs[tx].claim.incident !in s.locks)
    ensures Inv(init, s')
  {
    forall t | t in s'.txs ensures TxOk(s', t) { assert TxOk(s, t); }
    forall i | i in s'.locks ensures LockOk(s', i) { if i in s.locks { assert LockOk(s, i); } }
    forall i | i in s'.incidents ensures RowOk(init[i], s', i) { RowFrame(init[i], s, s', i); }
  }

  /** The winner finds the row as it was at first, so nobody has won it before. */
  lemma WinnerRow(init: map<IncidentId, Incident>, s: Sys, tx: TxId)
    requires Inv(init, s) && tx in s.txs && s.txs[tx].pc.Updated?
    ensures s.txs[tx].claim.incident in s.incidents
    ensures var i := s.txs[tx].claim.incident; RowOk(init[i], Publish(s, tx), i)
  {
    var i := s.txs[tx].claim.incident;
    assert TxOk(s, tx) && RowOk(init[i], s, i);
    var s' := Publish(s, tx);
    assert IsWinner(s', tx, i);
    forall other | IsWinner(s', other, i) ensures other == tx {
      if other != tx { assert IsWinner(s, other, i); }
    }
  }

  lemma PublishKeeps(init: map<IncidentId, Incident>, s: Sys, tx: TxId)
    requires Inv(init, s) && tx in s.txs && s.txs[tx].pc.Updated?
    ensures s.txs[tx].claim.incident in s.incidents && Inv(init, Publish(s, tx))
  {
    WinnerRow(init, s, tx);
    var s' := Publish(s, tx);
    assert TxOk(s, tx);
    forall t | t in s'.txs ensures TxOk(s', t) { assert TxOk(s, t); }
    forall i | i in s'.locks ensures LockOk(s', i) { assert LockOk(s, i); }
    forall i | i in s'.incidents ensures RowOk(init[i], s', i) {
      if i != s.txs[tx].claim.incident { RowFrame(init[i], s, s', i); }
    }
  }

  lemma NextKeeps(init: map<IncidentId, Incident>, s: Sys, a: Action)
    requires Inv(init, s)
    ensures Inv(init, Next(s, a))
  {
    match a
    case Start(tx, q) =>
      var s' := Next(s, a);
      forall t | t in s'.txs ensures TxOk(s', t) { if t in s.txs { assert TxOk(s, t); } }
      forall i | i in s'.locks ensures LockOk(s', i) { assert LockOk(s, i); }
      forall i | i in s'.incidents ensures RowOk(init[i], s', i) { RowFrame(init[i], s, s', i); }
    case Advance(tx) =>
      if tx in s.txs && !Blocked(s, tx) { StatementKeeps(init, s, tx); }
    case Crash(tx) => ReleaseKeeps(init, s, tx);
  }

  lemma StatementKeeps(init: map<IncidentId, Incident>, s: Sys, tx: TxId)
    requires Inv(init, s) && tx in s.txs && !Blocked(s, tx)
    ensures Inv(init, Statement(s, tx))
  {
    var q, s' := s.txs[tx].claim, Statement(s, tx);
    assert TxOk(s, tx);
    if s.txs[tx].pc.Updated? { PublishKeeps(init, s, tx); }
    else if tx !in s'.txs { LoseKeeps(init, s, tx, s'.answers[tx].outcome); }
    else { MoveKeeps(init, s, s', tx); }
  }

  lemma {:induction false} RunKeeps(init: map<IncidentId, Incident>, s: Sys, actions: seq<Action>)
    requires Inv(init, s)
    ensures Inv(init, Run(s, actions))
    decreases |actions|
  {
    if actions != [] {
      NextKeeps(init, s, actions[0]);
      RunKeeps(init, Next(s, actions[0]), actions[1..]);
    }
  }

  /** Claim exclusivity: over every interleaving of any number of claims, an incident has changed
      exactly if some claim of it reported success; that claim is the only one, found the incident
      unclaimed and within its area, and its organisation is the one on the row, one version on. */
  lemma ClaimedOnce(incidents: map<IncidentId, Incident>, actions: seq<Action>, i: IncidentId)
    requires i in incidents
    ensures var s := Run(Initial(incidents), actions);
            && i in s.incidents
            && (s.incidents[i] != incidents[i] <==> exists tx :: IsWinner(s, tx, i))
            && forall tx :: IsWinner(s, tx, i) ==>
                 && incidents[i].org.None? && s.answers[tx].claim.inArea
                 && s.incidents[i] == Incident(Some(s.answers[tx].claim.org), incidents[i].version + 1)
                 && forall other :: IsWinner(s, other, i) ==> other == tx
  {
    RunKeeps(incidents, Initial(incidents), actions);
    assert RowOk(incidents[i], Run(Initial(incidents), actions), i);
  }

  lemma NextKeepsClaimed(init: map<IncidentId, Incident>, s: Sys, a: Action, i: IncidentId)
    requires Inv(init, s) && i in s.incidents && s.incidents[i].org.Some?
    ensures i in Next(s, a).incidents && Next(s, a).incidents[i] == s.incidents[i]
  {
    if a.Advance? && a.tx in s.txs { assert TxOk(s, a.tx); }
  }

  lemma {:induction false} RunKeepsClaimed(init: map<IncidentId, Incident>, s: Sys, actions: seq<Action>, i: IncidentId)
    requires Inv(init, s) && i in s.incidents && s.incidents[i].org.Some?
    ensures i in Run(s, actions).incidents && Run(s, actions).incidents[i] == s.incidents[i]
    decreases |actions|
  {
    if actions != [] {
      NextKeepsClaimed(init, s, actions[0], i);
      NextKeeps(init, s, actions[0]);
      RunKeepsClaimed(init, Next(s, actions[0]), actions[1..], i);
    }
  }

  /** And once claimed, no further claim changes it. */
  lemma ClaimIsFinal(incidents: map<IncidentId, Incident>, actions: seq<Action>, more: seq<Action>, i: IncidentId)
    requires var s := Run(Initial(incidents), actions); i in s.incidents && s.incidents[i].org.Some?
    ensures var s := Run(Initial(incidents), actions);
            i in Run(s, more).incidents && Run(s, more).incidents[i] == s.incidents[i]
  {
    RunKeeps(incidents, Initial(incidents), actions);
    RunKeepsClaimed(incidents, Run(Initial(incidents), actions), more, i);
  }

  // ----- Every claim gets its answer -----

  /** The answer due to a claim that need not wait. */
  function Verdict(s: Sys, tx: TxId): Outcome
    requires tx in s.txs
  {
    var q := s.txs[tx].claim;
    if q.incident !in s.incidents then NotFound
    else if s.incidents[q.incident].org.Some? then (if s.txs[tx].pc.Begun? then AlreadyClaimed else JustClaimed)
    else if !q.inArea then OutsideServiceArea
    else Won
  }

  /** The row is nobody else's: it is not locked, or locked by the claim itself. */
  predicate Free(s: Sys, tx: TxId)
    requires tx in s.txs
  {
    var i := s.txs[tx].claim.incident;
    i in s.locks ==> s.locks[i] == tx
  }

  /** The claim is answered, and the row is the organisation's exactly if the answer is a win. */
  predicate Answered(s: Sys, s': Sys, tx: TxId)
    requires tx in s.txs
  {
    var q, outcome := s.txs[tx].claim, Verdict(s, tx);
    && tx !in s'.txs && s'.answers == s.answers[tx := Answer(q, outcome)]
    && if outcome == Won then
         q.incident in s.incidents
         && s'.incidents ==
            s.incidents[q.incident := Incident(Some(q.org), s.incidents[q.incident].version + 1)]
       else s'.incidents == s.incidents
  }

  function GoOn(s: Sys, tx: TxId, n: nat): Sys
    decreases n
  {
    if n == 0 then s else GoOn(Next(s, Advance(tx)), tx, n - 1)
  }

  function Rank(pc: Pc): nat {
    match pc
    case Begun => 3
    case Checked => 2
    case Updated => 1
  }

  lemma OneStatement(init: map<IncidentId, Incident>, s: Sys, tx: TxId)
    requires Inv(init, s) && tx in s.txs && Free(s, tx)
    ensures var s1 := Next(s, Advance(tx));
            if tx in s1.txs then
              && s1.txs[tx].claim == s.txs[tx].claim && Free(s1, tx) && Verdict(s1, tx) == Verdict(s, tx)
              && Rank(s1.txs[tx].pc) < Rank(s.txs[tx].pc)
              && s1.incidents == s.incidents && s1.answers == s.answers
            else Answered(s, s1, tx)
  {
    assert TxOk(s, tx);
    var i := s.txs[tx].claim.incident;
    if i in s.locks { assert LockOk(s, i); }
    match s.txs[tx].pc
    case Begun =>
    case Checked =>
    case Updated =>
  }

  lemma {:induction false} GoneStays(s: Sys, tx: TxId, n: nat)
    requires tx !in s.txs
    ensures GoOn(s, tx, n) == s
  {
    if n > 0 { GoneStays(s, tx, n - 1); }
  }

  lemma {:induction false} GoesOnToTheEnd(init: map<IncidentId, Incident>, s: Sys, tx: TxId, n: nat)
    requires Inv(init, s) && tx in s.txs && Free(s, tx) && Rank(s.txs[tx].pc) <= n
    ensures Answered(s, GoOn(s, tx, n), tx)
    decreases n
  {
    OneStatement(init, s, tx);
    NextKeeps(init, s, Advance(tx));
    var s1 := Next(s, Advance(tx));
    if tx in s1.txs { GoesOnToTheEnd(init, s1, tx, n - 1); } else { GoneStays(s1, tx, n - 1); }
  }

  lemma ReachedGoesOn(incidents: map<IncidentId, Incident>, actions: seq<Action>, tx: TxId)
    requires var s := Run(Initial(incidents), actions); tx in s.txs && Free(s, tx)
    ensures var s := Run(Initial(incidents), actions);
            Answered(s, GoOn(s, tx, 3), tx)
  {
    RunKeeps(incidents, Initial(incidents), actions);
    GoesOnToTheEnd(incidents, Run(Initial(incidents), actions), tx, 3);
  }

  /** In every reached state a claim whose row nobody else has locked is answered after three
      statements of its own. It wins exactly if the incident exists, is unclaimed and lies in the area;
      then, and only then, the incident is its organisation's, one version on. */
  lemma FreeClaimIsAnswered(incidents: map<IncidentId, Incident>, actions: seq<Action>, tx: TxId)
    requires var s := Run(Initial(incidents), actions); tx in s.txs && Free(s, tx)
    ensures var s := Run(Initial(incidents), actions);
            var s', q := GoOn(s, tx, 3), s.txs[tx].claim;
            var wins := q.incident in s.incidents && s.incidents[q.incident].org.None? && q.inArea;
            && tx !in s'.txs && tx in s'.answers && s'.answers[tx].claim == q
            && (s'.answers[tx].outcome == Won <==> wins)
            && (s'.answers[tx].outcome == NotFound <==> q.incident !in s.incidents)
            && (s'.answers[tx].outcome == OutsideServiceArea
                <==> q.incident in s.incidents && s.incidents[q.incident].org.None? && !q.inArea)
            && s'.incidents ==
               if wins then s.incidents[q.incident := Incident(Some(q.org), s.incidents[q.incident].version + 1)]
               else s.incidents
  {
    ReachedGoesOn(incidents, actions, tx);
    AnswerMeans(Run(Initial(incidents), actions), GoOn(Run(Initial(incidents), actions), tx, 3), tx);
  }

  lemma AnswerMeans(s: Sys, s': Sys, tx: TxId)
    requires tx in s.txs && Answered(s, s', tx)
    ensures var q := s.txs[tx].claim;
            var wins := q.incident in s.incidents && s.incidents[q.incident].org.None? && q.inArea;
            && tx !in s'.txs && tx in s'.answers && s'.answers[tx].claim == q
            && (s'.answers[tx].outcome == Won <==> wins)
            && (s'.answers[tx].outcome == NotFound <==> q.incident !in s.incidents)
            && (s'.answers[tx].outcome == OutsideServiceArea
                <==> q.incident in s.incidents && s.incidents[q.incident].org.None? && !q.inArea)
            && s'.incidents ==
               if wins then s.incidents[q.incident := Incident(Some(q.org), s.incidents[q.incident].version + 1)]
               else s.incidents
  {}

  /** A claim begins if its number is new; one that dies leaves the incidents, the answers given and
      everybody else alone, and gives its lock back. */
  lemma StartAndCrash(s: Sys, tx: TxId, q: Claim)
    ensures var s' := Next(s, Start(tx, q));
            s' == if tx in s.txs || tx in s.answers then s else s.(txs := s.txs[tx := Tx(q, Begun)])
    ensures var s' := Next(s, Crash(tx));
            && s'.incidents == s.incidents && s'.answers == s.answers && tx !in s'.txs
            && (forall t :: t in s.txs && t != tx ==> t in s'.txs && s'.txs[t] == s.txs[t])
            && (forall i :: i in s'.locks <==> i in s.locks && s.locks[i] != tx)
            && (forall i :: i in s'.locks ==> s'.locks[i] == s.locks[i])
  {}
}
