/** Concurrent `accept` and `revoke` of invite links. Accepting reads without a lock, then
    redeems with a conditional UPDATE that waits for the row and re-checks its WHERE on the
    latest committed version, and grants the membership through a second connection that
    commits at once, before the transaction itself does. */
module InviteLinks {
  import opened Common
  import opened Accounts

  type LinkId = nat
  type TxId = nat
  type Time = int

  datatype Link = Link(org: OrgId, maxUses: Option<nat>, usesCount: nat, expiresAt: Time, revoked: bool)

  datatype Request =
    | Accept(link: LinkId, user: UserId, now: Time, inArea: bool)
    | Revoke(org: OrgId, link: LinkId)

  datatype Pc =
    | Begun
    | Read(found: Link)
    | Counted
    | Granted
    | Marked

  datatype Tx = Tx(request: Request, pc: Pc)

  /** `granted` and `lost` record, per link, the memberships written and the transactions that
      died between that write and their own commit. */
  datatype Sys = Sys(
    links: map<LinkId, Link>,
    locks: map<LinkId, TxId>,
    users: map<UserId, Option<OrgId>>,
    txs: map<TxId, Tx>,
    granted: map<LinkId, nat>,
    lost: map<LinkId, nat>)

  datatype Action = Start(tx: TxId, request: Request) | Advance(tx: TxId) | Crash(tx: TxId)

  function Get(m: map<LinkId, nat>, l: LinkId): nat {
    if l in m then m[l] else 0
  }

  predicate Exhausted(l: Link) {
    l.maxUses.Some? && l.usesCount >= l.maxUses.value
  }

  function Release(s: Sys, tx: TxId): Sys {
    s.(locks := map l | l in s.locks && s.locks[l] != tx :: s.locks[l], txs := s.txs - {tx})
  }

  function Goto(s: Sys, tx: TxId, pc: Pc): Sys
    requires tx in s.txs
  {
    s.(txs := s.txs[tx := s.txs[tx].(pc := pc)])
  }

  /** The pre-checks, on whatever version of the row was committed when it was read. */
  predicate Acceptable(s: Sys, q: Request)
    requires q.Accept? && q.link in s.links
  {
    var found := s.links[q.link];
    && !found.revoked && found.expiresAt >= q.now && !Exhausted(found) && q.inArea
    && !(q.user in s.users && s.users[q.user].Some?)
  }

  /** The UPDATE of either request waits for the row lock. */
  predicate Blocked(s: Sys, tx: TxId)
    requires tx in s.txs
  {
    var t := s.txs[tx];
    t.request.link in s.locks && (t.pc.Read? || (t.request.Revoke? && t.pc.Begun?))
  }

  /** The conditional UPDATE matched: the row is locked and its new version is pending. */
  function Hold(s: Sys, tx: TxId, pc: Pc): Sys
    requires tx in s.txs
  {
    Goto(s, tx, pc).(locks := s.locks[s.txs[tx].request.link := tx])
  }

  /** `setMembership`, committed at once on its own connection. */
  function Grant(s: Sys, tx: TxId, user: UserId, org: OrgId): Sys
    requires tx in s.txs
  {
    var l := s.txs[tx].request.link;
    Goto(s, tx, Granted).(users := s.users[user := Some(org)], granted := s.granted[l := Get(s.granted, l) + 1])
  }

  /** COMMIT publishes the new version of the row. */
  function Publish(s: Sys, tx: TxId, link: Link): Sys
    requires tx in s.txs
  {
    Release(s, tx).(links := s.links[s.txs[tx].request.link := link])
  }

  function Statement(s: Sys, tx: TxId): Sys
    requires tx in s.txs
  {
    var q := s.txs[tx].request;
    if q.link !in s.links then Release(s, tx)
    else
      var link := s.links[q.link];
      match s.txs[tx].pc
      case Begun =>
        if q.Revoke? then
          if link.org != q.org then Release(s, tx) else Hold(s, tx, Marked)
        else if Acceptable(s, q) then Goto(s, tx, Read(link))
        else Release(s, tx)
      case Read(found) =>
        // WHERE uses_count < the limit that was read, on the latest committed row
        if found.maxUses.Some? && link.usesCount >= found.maxUses.value then Release(s, tx)
        else Hold(s, tx, Counted)
      case Counted => if q.Revoke? then s else Grant(s, tx, q.user, link.org)
      case Granted => Publish(s, tx, link.(usesCount := link.usesCount + 1))
      case Marked => Publish(s, tx, link.(revoked := true))
  }

  /** A transaction that dies rolls back; the membership it may have granted stays. */
  function Die(s: Sys, tx: TxId): Sys {
    if tx in s.txs && s.txs[tx].pc.Granted? then
      var l := s.txs[tx].request.link;
      Release(s, tx).(lost := s.lost[l := Get(s.lost, l) + 1])
    else Release(s, tx)
  }

  function Next(s: Sys, a: Action): Sys {
    match a
    case Start(tx, q) => if tx in s.txs then s else s.(txs := s.txs[tx := Tx(q, Begun)])
    case Advance(tx) => if tx !in s.txs || Blocked(s, tx) then s else Statement(s, tx)
    case Crash(tx) => Die(s, tx)
  }

  function Run(s: Sys, actions: seq<Action>): Sys
    decreases |actions|
  {
    if actions == [] then s else Run(Next(s, actions[0]), actions[1..])
  }

  function Initial(links: map<LinkId, Link>, users: map<UserId, Option<OrgId>>): Sys {
    Sys(links, map[], users, map[], map[], map[])
  }

  // ----- The invariant -----

  /** One transaction sits between its grant and its commit. */
  predicate InFlight(s: Sys, l: LinkId) {
    l in s.locks && s.locks[l] in s.txs && s.txs[s.locks[l]].pc.Granted?
  }

  ghost predicate TxOk(init: map<LinkId, Link>, s: Sys, tx: TxId)
    requires tx in s.txs
  {
    var q, pc := s.txs[tx].request, s.txs[tx].pc;
    && (!pc.Begun? ==> q.link in s.links && q.link in init)
    && (pc.Read? ==> q.Accept? && q.link in init && pc.found.maxUses == init[q.link].maxUses)
    && (pc.Counted? || pc.Granted? ==> q.Accept? && q.link in s.links && !Exhausted(s.links[q.link]))
    && (pc.Counted? || pc.Granted? || pc.Marked? ==> q.link in s.locks && s.locks[q.link] == tx)
  }

  /** The row against its initial version: the limit stays, the count only grows and never
      passes it, and a revocation is never undone. */
  ghost predicate LinkOk(was: Link, now: Link) {
    && now == was.(usesCount := now.usesCount, revoked := now.revoked)
    && (was.revoked ==> now.revoked)
    && (was.maxUses.Some? && was.usesCount <= was.maxUses.value ==> now.usesCount <= was.maxUses.value)
    && was.usesCount <= now.usesCount
  }

  ghost predicate Balanced(init: map<LinkId, Link>, s: Sys, l: LinkId)
    requires l in s.links && l in init
  {
    Get(s.granted, l) ==
      (s.links[l].usesCount - init[l].usesCount) + Get(s.lost, l) + (if InFlight(s, l) then 1 else 0)
  }

  ghost predicate LockOk(s: Sys, l: LinkId)
    requires l in s.locks
  {
    && s.locks[l] in s.txs && s.txs[s.locks[l]].request.link == l
    && !s.txs[s.locks[l]].pc.Begun? && !s.txs[s.locks[l]].pc.Read?
  }

  ghost predicate Inv(init: map<LinkId, Link>, s: Sys) {
    && s.links.Keys == init.Keys
    && (forall tx :: tx in s.txs ==> TxOk(init, s, tx))
    && (forall l :: l in s.locks ==> LockOk(s, l))
    && (forall l :: l in s.links ==> LinkOk(init[l], s.links[l]))
    && (forall l :: l in s.links ==> Balanced(init, s, l))
  }

  lemma ReleaseKeeps(init: map<LinkId, Link>, s: Sys, tx: TxId)
    requires Inv(init, s) && (tx in s.txs ==> !s.txs[tx].pc.Granted?)
    ensures Inv(init, Release(s, tx))
  {
    var s' := Release(s, tx);
    forall t | t in s'.txs ensures TxOk(init, s', t) { assert TxOk(init, s, t); }
    forall l | l in s'.locks ensures LockOk(s', l) { assert LockOk(s, l); }
    forall l | l in s'.links ensures Balanced(init, s', l) {
      assert Balanced(init, s, l);
      if l in s.locks { assert LockOk(s, l); }
    }
  }

  lemma ReadKeeps(init: map<LinkId, Link>, s: Sys, tx: TxId)
    requires Inv(init, s) && tx in s.txs && s.txs[tx].pc.Begun?
    requires s.txs[tx].request.Accept? && s.txs[tx].request.link in s.links
    ensures Inv(init, Goto(s, tx, Read(s.links[s.txs[tx].request.link])))
  {
    var s' := Goto(s, tx, Read(s.links[s.txs[tx].request.link]));
    forall t | t in s'.txs ensures TxOk(init, s', t) {
      assert TxOk(init, s, t);
      assert LinkOk(init[s.txs[tx].request.link], s.links[s.txs[tx].request.link]);
    }
    forall l | l in s'.locks ensures LockOk(s', l) { assert LockOk(s, l); }
    forall l | l in s'.links ensures Balanced(init, s', l) { assert Balanced(init, s, l); }
  }

  lemma HoldKeeps(init: map<LinkId, Link>, s: Sys, tx: TxId, pc: Pc)
    requires Inv(init, s) && tx in s.txs && (s.txs[tx].pc.Begun? || s.txs[tx].pc.Read?)
    requires s.txs[tx].request.link in s.links && s.txs[tx].request.link !in s.locks
    requires pc.Marked? || (pc.Counted? && s.txs[tx].request.Accept? && !Exhausted(s.links[s.txs[tx].request.link]))
    ensures Inv(init, Hold(s, tx, pc))
  {
    var s' := Hold(s, tx, pc);
    forall t | t in s'.txs ensures TxOk(init, s', t) { assert TxOk(init, s, t); }
    forall l | l in s'.locks ensures LockOk(s', l) { if l in s.locks { assert LockOk(s, l); } }
    forall l | l in s'.links ensures Balanced(init, s', l) { assert Balanced(init, s, l); }
  }

  lemma GrantKeeps(init: map<LinkId, Link>, s: Sys, tx: TxId, user: UserId, org: OrgId)
    requires Inv(init, s) && tx in s.txs && s.txs[tx].pc.Counted?
    ensures Inv(init, Grant(s, tx, user, org))
  {
    var s' := Grant(s, tx, user, org);
    assert TxOk(init, s, tx);
    forall t | t in s'.txs ensures TxOk(init, s', t) { assert TxOk(init, s, t); }
    forall l | l in s'.locks ensures LockOk(s', l) { assert LockOk(s, l); }
    forall l | l in s'.links ensures Balanced(init, s', l) {
      assert Balanced(init, s, l);
      if l in s.locks { assert LockOk(s, l); }
    }
  }

  /** Only the holder of the row lock is past its UPDATE, so a COMMIT disturbs nobody else. */
  lemma PublishKeepsTx(init: map<LinkId, Link>, s: Sys, tx: TxId, link: Link, t: TxId)
    requires Inv(init, s) && tx in s.txs && t in s.txs && t != tx
    requires s.txs[tx].pc.Granted? || s.txs[tx].pc.Marked?
    ensures TxOk(init, Publish(s, tx, link), t)
  {
    assert TxOk(init, s, t) && TxOk(init, s, tx);
  }

  lemma PublishKeeps(init: map<LinkId, Link>, s: Sys, tx: TxId, link: Link)
    requires Inv(init, s) && tx in s.txs && (s.txs[tx].pc.Granted? || s.txs[tx].pc.Marked?)
    requires var l := s.txs[tx].request.link;
             && l in s.links && LinkOk(init[l], link)
             && link.usesCount == s.links[l].usesCount + (if s.txs[tx].pc.Granted? then 1 else 0)
    ensures Inv(init, Publish(s, tx, link))
  {
    var s' := Publish(s, tx, link);
    assert TxOk(init, s, tx);
    forall t | t in s'.txs ensures TxOk(init, s', t) { PublishKeepsTx(init, s, tx, link, t); }
    forall l | l in s'.locks ensures LockOk(s', l) { assert LockOk(s, l); }
    forall l | l in s'.links ensures Balanced(init, s', l) {
      assert Balanced(init, s, l);
      if l in s.locks { assert LockOk(s, l); }
    }
  }

  lemma FirstStatementKeeps(init: map<LinkId, Link>, s: Sys, tx: TxId)
    requires Inv(init, s) && tx in s.txs && !Blocked(s, tx)
    requires s.txs[tx].pc.Begun? && s.txs[tx].request.link in s.links
    ensures Inv(init, Statement(s, tx))
  {
    var q := s.txs[tx].request;
    if q.Revoke? && s.links[q.link].org == q.org { HoldKeeps(init, s, tx, Marked); }
    else if q.Accept? && Acceptable(s, q) { ReadKeeps(init, s, tx); }
    else { ReleaseKeeps(init, s, tx); }
  }

  lemma RedeemKeeps(init: map<LinkId, Link>, s: Sys, tx: TxId)
    requires Inv(init, s) && tx in s.txs && !Blocked(s, tx) && s.txs[tx].pc.Read?
    ensures Inv(init, Statement(s, tx))
  {
    var q := s.txs[tx].request;
    assert TxOk(init, s, tx) && LinkOk(init[q.link], s.links[q.link]);
    if Exhausted(s.links[q.link]) { ReleaseKeeps(init, s, tx); } else { HoldKeeps(init, s, tx, Counted); }
  }

  lemma MembershipKeeps(init: map<LinkId, Link>, s: Sys, tx: TxId)
    requires Inv(init, s) && tx in s.txs && s.txs[tx].pc.Counted?
    ensures Inv(init, Statement(s, tx))
  {
    var q := s.txs[tx].request;
    assert TxOk(init, s, tx);
    GrantKeeps(init, s, tx, q.user, s.links[q.link].org);
  }

  lemma CommitKeeps(init: map<LinkId, Link>, s: Sys, tx: TxId)
    requires Inv(init, s) && tx in s.txs && (s.txs[tx].pc.Granted? || s.txs[tx].pc.Marked?)
    ensures Inv(init, Statement(s, tx))
  {
    var l := s.txs[tx].request.link;
    assert TxOk(init, s, tx);
    var link := s.links[l];
    assert LinkOk(init[l], link);
    var link' := if s.txs[tx].pc.Granted? then link.(usesCount := link.usesCount + 1) else link.(revoked := true);
    assert LinkOk(init[l], link');
    assert Statement(s, tx) == Publish(s, tx, link');
    PublishKeeps(init, s, tx, link');
  }

  lemma StatementKeeps(init: map<LinkId, Link>, s: Sys, tx: TxId)
    requires Inv(init, s) && tx in s.txs && !Blocked(s, tx)
    ensures Inv(init, Statement(s, tx))
  {
    var pc := s.txs[tx].pc;
    if pc.Begun? && s.txs[tx].request.link !in s.links { ReleaseKeeps(init, s, tx); }
    else if pc.Begun? { FirstStatementKeeps(init, s, tx); }
    else if pc.Read? { RedeemKeeps(init, s, tx); }
    else if pc.Counted? { MembershipKeeps(init, s, tx); }
    else { CommitKeeps(init, s, tx); }
  }

  lemma DieKeeps(init: map<LinkId, Link>, s: Sys, tx: TxId)
    requires Inv(init, s)
    ensures Inv(init, Die(s, tx))
  {
    if tx in s.txs && s.txs[tx].pc.Granted? {
      var s' := Die(s, tx);
      assert TxOk(init, s, tx);
      forall t | t in s'.txs ensures TxOk(init, s', t) { assert TxOk(init, s, t); }
      forall l | l in s'.locks ensures LockOk(s', l) { assert LockOk(s, l); }
      forall l | l in s'.links ensures Balanced(init, s', l) {
        assert Balanced(init, s, l);
        if l in s.locks { assert LockOk(s, l); }
      }
    } else {
      ReleaseKeeps(init, s, tx);
    }
  }

  lemma NextKeeps(init: map<LinkId, Link>, s: Sys, a: Action)
    requires Inv(init, s)
    ensures Inv(init, Next(s, a))
  {
    match a
    case Start(tx, q) =>
      var s' := Next(s, a);
      forall t | t in s'.txs ensures TxOk(init, s', t) { if t in s.txs { assert TxOk(init, s, t); } }
      forall l | l in s'.locks ensures LockOk(s', l) { assert LockOk(s, l); }
      forall l | l in s'.links ensures Balanced(init, s', l) {
        assert Balanced(init, s, l);
        if l in s.locks { assert LockOk(s, l); }
      }
    case Advance(tx) => if tx in s.txs && !Blocked(s, tx) { StatementKeeps(init, s, tx); }
    case Crash(tx) => DieKeeps(init, s, tx);
  }

  lemma {:induction false} RunKeeps(init: map<LinkId, Link>, s: Sys, actions: seq<Action>)
    requires Inv(init, s)
    ensures Inv(init, Run(s, actions))
    decreases |actions|
  {
    if actions != [] {
      NextKeeps(init, s, actions[0]);
      RunKeeps(init, Next(s, actions[0]), actions[1..]);
    }
  }

  // ----- What follows -----

  /** What a link may turn into: its uses only grow, a revocation stays, everything else is fixed. */
  predicate Later(was: Link, now: Link) {
    && now == was.(usesCount := now.usesCount, revoked := now.revoked)
    && was.usesCount <= now.usesCount && (was.revoked ==> now.revoked)
  }

  lemma NextIsLater(init: map<LinkId, Link>, s: Sys, a: Action, l: LinkId)
    requires Inv(init, s) && l in s.links
    ensures l in Next(s, a).links && Later(s.links[l], Next(s, a).links[l])
  {
    if a.Advance? && a.tx in s.txs { assert TxOk(init, s, a.tx); }
  }

  lemma {:induction false} RunIsLater(init: map<LinkId, Link>, s: Sys, actions: seq<Action>, l: LinkId)
    requires Inv(init, s) && l in s.links
    ensures l in Run(s, actions).links && Later(s.links[l], Run(s, actions).links[l])
    decreases |actions|
  {
    if actions != [] {
      NextIsLater(init, s, actions[0], l);
      NextKeeps(init, s, actions[0]);
      RunIsLater(init, Next(s, actions[0]), actions[1..], l);
    }
  }

  /** In every interleaving of any number of accepts and revokes the committed counter stays
      within the limit, the limit never changes, and a link revoked before stays revoked. */
  lemma LimitHolds(links: map<LinkId, Link>, users: map<UserId, Option<OrgId>>, actions: seq<Action>, l: LinkId)
    requires l in links && (links[l].maxUses.Some? ==> links[l].usesCount <= links[l].maxUses.value)
    ensures var s := Run(Initial(links, users), actions);
            && l in s.links && s.links[l].maxUses == links[l].maxUses
            && (links[l].maxUses.Some? ==> s.links[l].usesCount <= links[l].maxUses.value)
            && (links[l].revoked ==> s.links[l].revoked)
  {
    RunKeeps(links, Initial(links, users), actions);
    var s := Run(Initial(links, users), actions);
    assert l in s.links && LinkOk(links[l], s.links[l]);
  }

  /** From any reached state on, whatever accepts are past their read: a committed revocation
      stays, the counter never falls, and nothing else about the link changes. */
  lemma RevocationStays(links: map<LinkId, Link>, users: map<UserId, Option<OrgId>>,
                        actions: seq<Action>, more: seq<Action>, l: LinkId)
    requires l in Run(Initial(links, users), actions).links
    ensures var s := Run(Initial(links, users), actions);
            var later := Run(s, more);
            && l in later.links && later.links[l].maxUses == s.links[l].maxUses && later.links[l].org == s.links[l].org
            && (s.links[l].revoked ==> later.links[l].revoked)
            && s.links[l].usesCount <= later.links[l].usesCount
  {
    RunKeeps(links, Initial(links, users), actions);
    RunIsLater(links, Run(Initial(links, users), actions), more, l);
  }

  /** Conservation: every membership granted through a link is a counted use, the one grant in
      flight, or the grant of a transaction that died before its commit. */
  lemma GrantsAreAccountedFor(links: map<LinkId, Link>, users: map<UserId, Option<OrgId>>, actions: seq<Action>,
      l: LinkId)
    requires l in links
    ensures var s := Run(Initial(links, users), actions);
            l in s.links && Get(s.granted, l) ==
              (s.links[l].usesCount - links[l].usesCount) + Get(s.lost, l) + (if InFlight(s, l) then 1 else 0)
  {
    RunKeeps(links, Initial(links, users), actions);
    assert Balanced(links, Run(Initial(links, users), actions), l);
  }

  /** While no commit fails after its grant, the grants equal the counted uses, or exceed them
      by one exactly while a transaction sits between its grant and its commit; so they never
      exceed the limit. */
  lemma GrantsWithinLimit(links: map<LinkId, Link>, users: map<UserId, Option<OrgId>>, actions: seq<Action>, l: LinkId)
    requires l in links && links[l].usesCount == 0
    requires Get(Run(Initial(links, users), actions).lost, l) == 0
    ensures var s := Run(Initial(links, users), actions);
            && l in s.links
            && Get(s.granted, l) == s.links[l].usesCount + (if InFlight(s, l) then 1 else 0)
            && (links[l].maxUses.Some? ==> Get(s.granted, l) <= links[l].maxUses.value)
  {
    var s := Run(Initial(links, users), actions);
    RunKeeps(links, Initial(links, users), actions);
    assert Balanced(links, s, l) && LinkOk(links[l], s.links[l]);
    if InFlight(s, l) {
      assert LockOk(s, l);
      assert TxOk(links, s, s.locks[l]);
    }
  }
}
