/** What accepting and revoking invite links comes to: which step writes which table, when a link can
    move a member, and what a request does that nobody interferes with. */
module InviteOutcomes {
  import opened Common
  import opened Accounts
  import opened InviteLinks

  // ----- What each step does to the tables -----

  /** What one statement does to memberships and links, place by place. */
  lemma GrantStatement(s: Sys, tx: TxId)
    requires tx in s.txs && s.txs[tx].pc.Counted? && s.txs[tx].request.Accept?
    requires s.txs[tx].request.link in s.links
    ensures var s', q := Statement(s, tx), s.txs[tx].request;
            && tx in s'.txs && s'.txs[tx].pc.Granted? && s'.links == s.links && s'.lost == s.lost
            && s'.users == s.users[q.user := Some(s.links[q.link].org)]
            && s'.granted == s.granted[q.link := Get(s.granted, q.link) + 1]
  {}

  lemma OtherStatement(s: Sys, tx: TxId)
    requires tx in s.txs && !s.txs[tx].pc.Counted?
    ensures Statement(s, tx).users == s.users && Statement(s, tx).granted == s.granted
    ensures !s.txs[tx].pc.Granted? && !s.txs[tx].pc.Marked? ==> Statement(s, tx).links == s.links
  {
    var pc := s.txs[tx].pc;
    if pc.Begun? {
    } else if pc.Read? {
    } else {
    }
  }

  lemma CommitStatement(s: Sys, tx: TxId)
    requires tx in s.txs && (s.txs[tx].pc.Granted? || s.txs[tx].pc.Marked?)
    requires var l := s.txs[tx].request.link; l in s.links && l in s.locks && s.locks[l] == tx
    ensures var s', l := Statement(s, tx), s.txs[tx].request.link;
            && tx !in s'.txs && l !in s'.locks
            && s'.links == s.links[l := if s.txs[tx].pc.Granted?
                                        then s.links[l].(usesCount := s.links[l].usesCount + 1)
                                        else s.links[l].(revoked := true)]
  {}

  /** Memberships and the record of them change only when a transaction that has counted its use
      goes on, and then it writes the membership and nothing else: the user is in the organisation of
      the link, and one more membership is on record for that link. */
  lemma OnlyGrantsWriteMembers(init: map<LinkId, Link>, s: Sys, a: Action)
    requires Inv(init, s)
    ensures var s' := Next(s, a);
            if a.Advance? && a.tx in s.txs && s.txs[a.tx].pc.Counted? then
              && s.txs[a.tx].request.Accept? && a.tx in s'.txs && s'.txs[a.tx].pc.Granted?
              && var q := s.txs[a.tx].request;
                 && q.link in s.links && s'.links == s.links && s'.lost == s.lost
                 && s'.users == s.users[q.user := Some(s.links[q.link].org)]
                 && Get(s'.granted, q.link) == Get(s.granted, q.link) + 1
                 && forall l :: l != q.link ==> Get(s'.granted, l) == Get(s.granted, l)
            else
              s'.users == s.users && s'.granted == s.granted
  {
    if a.Advance? && a.tx in s.txs {
      assert TxOk(init, s, a.tx);
      if s.txs[a.tx].pc.Counted? { GrantStatement(s, a.tx); } else { OtherStatement(s, a.tx); }
    }
  }

  /** Links change only at a COMMIT: by one use after a grant, or by the revocation. */
  lemma OnlyCommitsWriteLinks(init: map<LinkId, Link>, s: Sys, a: Action)
    requires Inv(init, s)
    ensures var s' := Next(s, a);
            if a.Advance? && a.tx in s.txs && (s.txs[a.tx].pc.Granted? || s.txs[a.tx].pc.Marked?) then
              && a.tx !in s'.txs && s'.users == s.users
              && var l := s.txs[a.tx].request.link;
                 && l in s.links && l !in s'.locks
                 && s'.links == s.links[l := if s.txs[a.tx].pc.Granted?
                                             then s.links[l].(usesCount := s.links[l].usesCount + 1)
                                             else s.links[l].(revoked := true)]
            else
              s'.links == s.links
  {
    if a.Advance? && a.tx in s.txs {
      assert TxOk(init, s, a.tx);
      if s.txs[a.tx].pc.Counted? {
        GrantStatement(s, a.tx);
      } else {
        OtherStatement(s, a.tx);
        if s.txs[a.tx].pc.Granted? || s.txs[a.tx].pc.Marked? { CommitStatement(s, a.tx); }
      }
    }
  }

  /** A transaction that dies gives its lock back and leaves links, memberships and everybody else alone;
      one that had granted is put on record. */
  lemma CrashOutcome(s: Sys, tx: TxId)
    ensures var s' := Next(s, Crash(tx));
            && s'.links == s.links && s'.users == s.users && s'.granted == s.granted && tx !in s'.txs
            && (forall t :: t in s.txs && t != tx ==> t in s'.txs && s'.txs[t] == s.txs[t])
            && (forall l :: l in s'.locks <==> l in s.locks && s.locks[l] != tx)
            && (forall l :: Get(s'.lost, l) ==
                  Get(s.lost, l) + if tx in s.txs && s.txs[tx].pc.Granted? && s.txs[tx].request.link == l then 1 else 0)
  {}

  function OrgIn(users: map<UserId, Option<OrgId>>, user: UserId): Option<OrgId> {
    if user in users then users[user] else None
  }

  /** Whoever ends a run in another organisation than at its start is in the organisation of a link
      through which a membership was granted in that run. */
  lemma {:induction false} MembersCameThroughLinks(init: map<LinkId, Link>, s: Sys, actions: seq<Action>, user: UserId)
    requires Inv(init, s)
    ensures var s' := Run(s, actions);
            && (forall l :: Get(s.granted, l) <= Get(s'.granted, l))
            && (OrgIn(s'.users, user) != OrgIn(s.users, user) ==>
                  exists l :: l in init && OrgIn(s'.users, user) == Some(init[l].org)
                              && Get(s.granted, l) < Get(s'.granted, l))
    decreases |actions|
  {
    if actions != [] {
      var a, s1 := actions[0], Next(s, actions[0]);
      OnlyGrantsWriteMembers(init, s, a);
      NextKeeps(init, s, a);
      MembersCameThroughLinks(init, s1, actions[1..], user);
      if OrgIn(s1.users, user) != OrgIn(s.users, user) {
        var l := s.txs[a.tx].request.link;
        assert LinkOk(init[l], s.links[l]);
        assert Get(s.granted, l) < Get(Run(s, actions).granted, l);
      }
    }
  }

  /** The same from the start of the service on, where nothing has been granted yet. */
  lemma EveryMemberWasGranted(links: map<LinkId, Link>, users: map<UserId, Option<OrgId>>, actions: seq<Action>,
      user: UserId)
    ensures var s := Run(Initial(links, users), actions);
            OrgIn(s.users, user) != OrgIn(users, user) ==>
              exists l :: l in links && OrgIn(s.users, user) == Some(links[l].org) && Get(s.granted, l) > 0
  {
    MembersCameThroughLinks(links, Initial(links, users), actions, user);
  }

  // ----- Whether a member can be moved -----

  /** A redemption by the user that has passed the membership check and can still be granted, into
      another organisation than the user is in by now. */
  predicate CanStillMove(s: Sys, user: UserId, tx: TxId) {
    && tx in s.txs && s.txs[tx].request.Accept? && s.txs[tx].request.user == user
    && s.txs[tx].request.link in s.links
    && var link := s.links[s.txs[tx].request.link];
       && Some(link.org) != OrgIn(s.users, user)
       && (s.txs[tx].pc.Counted? || (s.txs[tx].pc.Read? && !Exhausted(link)))
  }

  /** A transaction that cannot move the member now cannot do so a step later. */
  lemma StillCannot(init: map<LinkId, Link>, s: Sys, a: Action, user: UserId, tx: TxId)
    requires Inv(init, s) && !CanStillMove(s, user, tx) && tx in s.txs
    requires OrgIn(s.users, user).Some? && OrgIn(Next(s, a).users, user) == OrgIn(s.users, user)
    ensures !CanStillMove(Next(s, a), user, tx)
  {
    assert TxOk(init, s, tx);
    if tx in Next(s, a).txs {
      NextPc(init, s, a, tx);
      if s.txs[tx].request.link in s.links { NextIsLater(init, s, a, s.txs[tx].request.link); }
    }
  }

  /** A statement ends its transaction or takes it one place further. */
  lemma StatementMovesOne(s: Sys, tx: TxId)
    requires tx in s.txs
    ensures var txs := Statement(s, tx).txs;
            txs == s.txs - {tx} || (tx in txs && txs == s.txs[tx := s.txs[tx].(pc := txs[tx].pc)])
  {
    var q, pc := s.txs[tx].request, s.txs[tx].pc;
    if q.link !in s.links {
    } else if pc.Begun? {
    } else if pc.Read? {
    } else {
    }
  }

  lemma OthersKeepTheirPlace(s: Sys, a: Action, tx: TxId)
    requires tx in s.txs && a != Advance(tx) && a != Crash(tx)
    ensures tx in Next(s, a).txs && Next(s, a).txs[tx] == s.txs[tx]
  {
    if a.Advance? && a.tx in s.txs { StatementMovesOne(s, a.tx); }
    if a.Crash? { assert Next(s, a).txs == s.txs - {a.tx}; }
  }

  /** What an accepting transaction has passed when it gets to its next statement. */
  lemma ChecksPassed(s: Sys, tx: TxId)
    requires tx in s.txs && tx in Statement(s, tx).txs && s.txs[tx].request.link in s.links
    requires s.txs[tx].pc.Read? ==> s.txs[tx].pc.found.maxUses == s.links[s.txs[tx].request.link].maxUses
    ensures var t, t', l := s.txs[tx], Statement(s, tx).txs[tx], s.txs[tx].request.link;
            && t'.request == t.request
            && (t'.pc.Read? ==> t.pc.Begun? && t.request.Accept? && OrgIn(s.users, t.request.user).None?)
            && (t'.pc.Counted? && !t.pc.Counted? ==> t.pc.Read? && !Exhausted(s.links[l]))
  {
    var pc := s.txs[tx].pc;
    StatementMovesOne(s, tx);
    if pc.Begun? {
    } else if pc.Read? {
    } else {
    }
  }

  /** A transaction is past its read, or has counted its use, only after a check that it passed. */
  lemma NextPc(init: map<LinkId, Link>, s: Sys, a: Action, tx: TxId)
    requires Inv(init, s) && tx in s.txs && tx in Next(s, a).txs
    ensures var t, t', l := s.txs[tx], Next(s, a).txs[tx], s.txs[tx].request.link;
            && t'.request == t.request && (t'.pc != t.pc ==> l in s.links)
            && (t'.pc.Read? && !t.pc.Read? ==> t.request.Accept? && OrgIn(s.users, t.request.user).None?)
            && (t'.pc.Counted? && !t.pc.Counted? ==> t.pc.Read? && l in s.links && !Exhausted(s.links[l]))
  {
    if a == Crash(tx) {
    } else if a == Advance(tx) {
      assert TxOk(init, s, tx);
      if s.txs[tx].request.link in s.links && !Blocked(s, tx) {
        assert LinkOk(init[s.txs[tx].request.link], s.links[s.txs[tx].request.link]);
        ChecksPassed(s, tx);
      }
    } else {
      OthersKeepTheirPlace(s, a, tx);
    }
  }

  lemma MemberStaysOneStep(init: map<LinkId, Link>, s: Sys, a: Action, user: UserId)
    requires Inv(init, s) && OrgIn(s.users, user).Some? && forall tx :: !CanStillMove(s, user, tx)
    ensures OrgIn(Next(s, a).users, user) == OrgIn(s.users, user)
    ensures forall tx :: !CanStillMove(Next(s, a), user, tx)
  {
    OnlyGrantsWriteMembers(init, s, a);
    if a.Advance? && a.tx in s.txs {
      assert TxOk(init, s, a.tx) && !CanStillMove(s, user, a.tx);
    }
    forall tx ensures !CanStillMove(Next(s, a), user, tx) {
      if tx in s.txs { StillCannot(init, s, a, user, tx); }
    }
  }

  lemma {:induction false} MemberStays(init: map<LinkId, Link>, s: Sys, actions: seq<Action>, user: UserId)
    requires Inv(init, s) && OrgIn(s.users, user).Some? && forall tx :: !CanStillMove(s, user, tx)
    ensures OrgIn(Run(s, actions).users, user) == OrgIn(s.users, user)
    decreases |actions|
  {
    if actions != [] {
      MemberStaysOneStep(init, s, actions[0], user);
      NextKeeps(init, s, actions[0]);
      MemberStays(init, Next(s, actions[0]), actions[1..], user);
    }
  }

  /** The run that moves the member: whoever holds the row dies, and the redemption goes on. */
  lemma MemberMoves(init: map<LinkId, Link>, s: Sys, user: UserId, tx: TxId) returns (actions: seq<Action>)
    requires Inv(init, s) && CanStillMove(s, user, tx)
    ensures OrgIn(Run(s, actions).users, user) != OrgIn(s.users, user)
  {
    assert TxOk(init, s, tx);
    if s.txs[tx].pc.Counted? {
      actions := [Advance(tx)];
      assert Run(s, actions) == Run(Next(s, Advance(tx)), []);
    } else {
      var l := s.txs[tx].request.link;
      assert LinkOk(init[l], s.links[l]);
      if l in s.locks {
        assert LockOk(s, l);
        var free := Next(s, Crash(s.locks[l]));
        NextKeeps(init, s, Crash(s.locks[l]));
        CrashOutcome(s, s.locks[l]);
        var rest := MoveFrom(init, free, user, tx);
        actions := [Crash(s.locks[l])] + rest;
        assert actions[1..] == rest;
      } else {
        actions := MoveFrom(init, s, user, tx);
      }
    }
  }

  lemma MoveFrom(init: map<LinkId, Link>, s: Sys, user: UserId, tx: TxId) returns (actions: seq<Action>)
    requires Inv(init, s) && CanStillMove(s, user, tx) && s.txs[tx].pc.Read? && s.txs[tx].request.link !in s.locks
    ensures OrgIn(Run(s, actions).users, user) != OrgIn(s.users, user)
  {
    assert TxOk(init, s, tx) && LinkOk(init[s.txs[tx].request.link], s.links[s.txs[tx].request.link]);
    actions := [Advance(tx), Advance(tx)];
    var s1 := Next(s, Advance(tx));
    assert s1 == Hold(s, tx, Counted);
    assert actions[1..] == [Advance(tx)] && actions[1..][1..] == [];
    assert Run(s, actions) == Run(s1, [Advance(tx)]) == Run(Next(s1, Advance(tx)), []);
  }

  /** Accepting refuses whoever is a member already, but looks before it waits for the row. So in a
      reached state a member can still be moved by a link exactly if a redemption of theirs has passed
      that check, leads to another organisation and is not bound to find the link used up. */
  lemma MemberMovedIff(links: map<LinkId, Link>, users: map<UserId, Option<OrgId>>, actions: seq<Action>, user: UserId)
    requires OrgIn(Run(Initial(links, users), actions).users, user).Some?
    ensures var s := Run(Initial(links, users), actions);
            (exists more :: OrgIn(Run(s, more).users, user) != OrgIn(s.users, user))
            <==> exists tx :: CanStillMove(s, user, tx)
  {
    RunKeeps(links, Initial(links, users), actions);
    var s := Run(Initial(links, users), actions);
    if tx :| CanStillMove(s, user, tx) {
      var more := MemberMoves(links, s, user, tx);
    } else {
      forall more ensures OrgIn(Run(s, more).users, user) == OrgIn(s.users, user) {
        MemberStays(links, s, more, user);
      }
    }
  }

  /** Two redemptions by one user, as far as the membership check, and then the first of them granted. */
  function TwoAccepts(first: Link, second: Link, pc1: Pc, pc2: Pc): Sys {
    Initial(map[1 := first, 2 := second], map[]).(
      txs := map[1 := Tx(Accept(1, 5, 0, true), pc1), 2 := Tx(Accept(2, 5, 0, true), pc2)],
      locks := if pc1.Counted? then map[1 := 1] else map[])
  }

  ghost predicate Usable(link: Link) {
    !link.revoked && !Exhausted(link) && link.expiresAt >= 0
  }

  lemma BothBegin(first: Link, second: Link)
    ensures Run(Initial(map[1 := first, 2 := second], map[]),
                [Start(1, Accept(1, 5, 0, true)), Start(2, Accept(2, 5, 0, true))])
         == TwoAccepts(first, second, Begun, Begun)
  {
    var s, q1, q2 := Initial(map[1 := first, 2 := second], map[]), Accept(1, 5, 0, true), Accept(2, 5, 0, true);
    RunOne(s, Start(1, q1), [Start(2, q2)]);
    RunOne(Next(s, Start(1, q1)), Start(2, q2), []);
    assert Next(s, Start(1, q1)).txs == map[1 := Tx(q1, Begun)];
  }

  lemma BothRead(first: Link, second: Link)
    requires Usable(first) && Usable(second)
    ensures Next(TwoAccepts(first, second, Begun, Begun), Advance(1)) == TwoAccepts(first, second, Read(first), Begun)
    ensures Next(TwoAccepts(first, second, Read(first), Begun), Advance(2))
         == TwoAccepts(first, second, Read(first), Read(second))
  {}

  lemma FirstCounts(first: Link, second: Link)
    requires Usable(first)
    ensures Next(TwoAccepts(first, second, Read(first), Read(second)), Advance(1))
         == TwoAccepts(first, second, Counted, Read(second))
  {
    var s := TwoAccepts(first, second, Read(first), Read(second));
    assert Next(s, Advance(1)) == Hold(s, 1, Counted);
    assert Hold(s, 1, Counted).txs == TwoAccepts(first, second, Counted, Read(second)).txs;
  }

  lemma FirstIsGranted(first: Link, second: Link)
    requires first.org != second.org && Usable(second)
    ensures var s := Next(TwoAccepts(first, second, Counted, Read(second)), Advance(1));
            OrgIn(s.users, 5) == Some(first.org) && CanStillMove(s, 5, 2)
  {
    var s := TwoAccepts(first, second, Counted, Read(second));
    GrantStatement(s, 1);
    assert Next(s, Advance(1)) == Grant(s, 1, 5, first.org);
  }

  /** One user, two links of different organisations: both redemptions look before either is granted,
      and the second can move the member that the first has made. */
  lemma TwoLinksMoveAMember(first: Link, second: Link)
    requires first.org != second.org && Usable(first) && Usable(second)
    ensures exists actions ::
              var s := Run(Initial(map[1 := first, 2 := second], map[]), actions);
              OrgIn(s.users, 5) == Some(first.org) && CanStillMove(s, 5, 2)
  {
    var starts := [Start(1, Accept(1, 5, 0, true)), Start(2, Accept(2, 5, 0, true))];
    var rest := [Advance(1), Advance(2), Advance(1), Advance(1)];
    BothBegin(first, second);
    FirstMakesAMember(first, second);
    RunAppend(Initial(map[1 := first, 2 := second], map[]), starts, rest);
    assert CanStillMove(Run(Initial(map[1 := first, 2 := second], map[]), starts + rest), 5, 2);
  }

  lemma {:induction false} RunAppend(s: Sys, a: seq<Action>, b: seq<Action>)
    ensures Run(s, a + b) == Run(Run(s, a), b)
    decreases |a|
  {
    if a == [] {
      assert a + b == b;
    } else {
      assert (a + b)[1..] == a[1..] + b;
      RunAppend(Next(s, a[0]), a[1..], b);
    }
  }

  lemma FirstMakesAMember(first: Link, second: Link)
    requires first.org != second.org && Usable(first) && Usable(second)
    ensures var s := Run(TwoAccepts(first, second, Begun, Begun), [Advance(1), Advance(2), Advance(1), Advance(1)]);
            OrgIn(s.users, 5) == Some(first.org) && CanStillMove(s, 5, 2)
  {
    BothRead(first, second);
    FirstCounts(first, second);
    FirstIsGranted(first, second);
    RunOne(TwoAccepts(first, second, Begun, Begun), Advance(1), [Advance(2), Advance(1), Advance(1)]);
    RunOne(TwoAccepts(first, second, Read(first), Begun), Advance(2), [Advance(1), Advance(1)]);
    RunOne(TwoAccepts(first, second, Read(first), Read(second)), Advance(1), [Advance(1)]);
    RunOne(TwoAccepts(first, second, Counted, Read(second)), Advance(1), []);
  }

  lemma RunOne(s: Sys, a: Action, actions: seq<Action>)
    ensures Run(s, [a] + actions) == Run(Next(s, a), actions)
  {
    assert ([a] + actions)[1..] == actions;
  }

  // ----- One request at a time -----

  /** A request while nobody else is after its link: all its statements one after the other. */
  function Alone(s: Sys, tx: TxId, q: Request): Sys {
    Next(Next(Next(Next(Next(s, Start(tx, q)), Advance(tx)), Advance(tx)), Advance(tx)), Advance(tx))
  }

  predicate Idle(s: Sys, tx: TxId, l: LinkId) {
    tx !in s.txs && l !in s.locks && forall k | k in s.locks :: s.locks[k] != tx
  }

  /** The idle state with one transaction added, before or after it has taken the row lock. */
  function At(s: Sys, tx: TxId, q: Request, pc: Pc, holds: bool): Sys {
    s.(txs := s.txs[tx := Tx(q, pc)], locks := if holds then s.locks[q.link := tx] else s.locks)
  }

  lemma LeavesNoTrace(s: Sys, tx: TxId, q: Request, pc: Pc, holds: bool)
    requires Idle(s, tx, q.link)
    ensures Release(At(s, tx, q, pc, holds), tx) == s
  {
    assert s.txs[tx := Tx(q, pc)] - {tx} == s.txs;
    assert Release(At(s, tx, q, pc, holds), tx).locks == s.locks;
  }

  lemma GotoAt(s: Sys, tx: TxId, q: Request, pc: Pc, pc': Pc, holds: bool)
    ensures Goto(At(s, tx, q, pc, holds), tx, pc') == At(s, tx, q, pc', holds)
    ensures Hold(At(s, tx, q, pc, false), tx, pc') == At(s, tx, q, pc', true)
  {
    assert s.txs[tx := Tx(q, pc)][tx := Tx(q, pc')] == s.txs[tx := Tx(q, pc')];
  }

  lemma GoneStays(s: Sys, tx: TxId)
    requires tx !in s.txs
    ensures Next(s, Advance(tx)) == s
  {}

  /** Redemption succeeds exactly when the link exists, is not revoked, not expired and not used up,
      the user stands inside the service area and is in no organisation. Then the user is a member
      and the use is counted; otherwise nothing has changed. */
  lemma AcceptAlone(s: Sys, tx: TxId, l: LinkId, user: UserId, now: Time, inArea: bool)
    requires Idle(s, tx, l)
    ensures Alone(s, tx, Accept(l, user, now, inArea)) ==
            if l in s.links && !s.links[l].revoked && s.links[l].expiresAt >= now && inArea
               && (s.links[l].maxUses.Some? ==> s.links[l].usesCount < s.links[l].maxUses.value)
               && (user in s.users ==> s.users[user].None?)
            then s.(users := s.users[user := Some(s.links[l].org)],
                    links := s.links[l := s.links[l].(usesCount := s.links[l].usesCount + 1)],
                    granted := s.granted[l := Get(s.granted, l) + 1])
            else s
  {
    var q := Accept(l, user, now, inArea);
    var s1 := At(s, tx, q, Begun, false);
    assert Next(s, Start(tx, q)) == s1;
    LeavesNoTrace(s, tx, q, Begun, false);
    GoneStays(s, tx);
    if l in s.links && Acceptable(s, q) {
      var link := s.links[l];
      GotoAt(s, tx, q, Begun, Read(link), false);
      assert Next(s1, Advance(tx)) == At(s, tx, q, Read(link), false);
      GotoAt(s, tx, q, Read(link), Counted, false);
      var s3 := At(s, tx, q, Counted, true);
      assert Next(At(s, tx, q, Read(link), false), Advance(tx)) == s3;
      RedeemAlone(s, tx, q);
    } else {
      assert Next(s1, Advance(tx)) == s;
    }
  }

  /** From the counted use to the COMMIT. */
  lemma RedeemAlone(s: Sys, tx: TxId, q: Request)
    requires Idle(s, tx, q.link) && q.Accept? && q.link in s.links
    ensures var link := s.links[q.link];
            Next(Next(At(s, tx, q, Counted, true), Advance(tx)), Advance(tx)) ==
            s.(users := s.users[q.user := Some(link.org)],
               links := s.links[q.link := link.(usesCount := link.usesCount + 1)],
               granted := s.granted[q.link := Get(s.granted, q.link) + 1])
  {
    var link := s.links[q.link];
    var members := s.(users := s.users[q.user := Some(link.org)],
                      granted := s.granted[q.link := Get(s.granted, q.link) + 1]);
    GotoAt(s, tx, q, Counted, Granted, true);
    assert Next(At(s, tx, q, Counted, true), Advance(tx)) == At(members, tx, q, Granted, true);
    LeavesNoTrace(members, tx, q, Granted, true);
  }

  /** A revocation by an admin of the link's organisation revokes it; any other changes nothing. */
  lemma RevokeAlone(s: Sys, tx: TxId, org: OrgId, l: LinkId)
    requires Idle(s, tx, l)
    ensures Alone(s, tx, Revoke(org, l)) ==
            if l in s.links && s.links[l].org == org then s.(links := s.links[l := s.links[l].(revoked := true)])
            else s
  {
    var q := Revoke(org, l);
    var s1 := At(s, tx, q, Begun, false);
    assert Next(s, Start(tx, q)) == s1;
    LeavesNoTrace(s, tx, q, Begun, false);
    LeavesNoTrace(s, tx, q, Marked, true);
    GoneStays(s, tx);
    if l in s.links && s.links[l].org == org {
      GotoAt(s, tx, q, Begun, Marked, false);
      var s2 := At(s, tx, q, Marked, true);
      assert Next(s1, Advance(tx)) == s2;
      var s3 := s.(links := s.links[l := s.links[l].(revoked := true)]);
      assert Next(s2, Advance(tx)) == s3;
      GoneStays(s3, tx);
    } else {
      assert Next(s1, Advance(tx)) == s;
    }
  }
}
