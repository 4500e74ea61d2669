/** The session variables behind row-level security on pooled connections, and the policies as
    three-valued conditions that can raise a cast error. A custom variable reads NULL until the
    session first sets it; from then on it reads '' whenever no open transaction has set it. */
module RowSecurity {
  import opened Common
  import Accounts
  import Workflow

  datatype Var =
    | Tenant | CurrentUser | OrgAdmin | PlatformAdmin
    | TokenLookup | JoinSubmission | PublicMapRead

  datatype Text = Empty | TrueText | FalseText | Id(id: nat)

  /** `touched` are the names this session has ever set, `local` what the open transaction has set. */
  datatype Session = Session(touched: set<Var>, local: map<Var, Text>)

  const FRESH := Session({}, map[])

  /** `current_setting(name, true)`; `None` is NULL. */
  function Current(c: Session, v: Var): Option<Text> {
    if v in c.local then Some(c.local[v]) else if v in c.touched then Some(Empty) else None
  }

  /** `set_config(name, value, true)`. */
  function SetLocal(c: Session, v: Var, t: Text): Session {
    Session(c.touched + {v}, c.local[v := t])
  }

  /** COMMIT and ROLLBACK both revert transaction-local settings. */
  function EndTransaction(c: Session): Session {
    c.(local := map[])
  }

  // ----- Conditions -----

  datatype Truth = True | False | Null | Raises

  datatype Row = Row(org: Option<nat>, user: Option<nat>)

  datatype Cond =
    | OrgIsTenant       // organisation_id = NULLIF(current_setting(..), '')::uuid
    | UserIsCurrent     // the same for the user column of the table
    | OrgIsNull
    | CastIsTrue(v: Var) // current_setting(..)::boolean IS TRUE
    | TextIsTrue(v: Var) // current_setting(..) = 'true'
    | Or(left: Cond, right: Cond)
    | And(left: Cond, right: Cond)

  /** column = NULLIF(setting, '')::uuid. */
  function EqualsId(column: Option<nat>, setting: Option<Text>): Truth {
    match setting
    case None => Null
    case Some(Empty) => Null
    case Some(Id(n)) => if column.None? then Null else if column.value == n then True else False
    case _ => Raises
  }

  function CastTruth(setting: Option<Text>): Truth {
    match setting
    case None => False
    case Some(TrueText) => True
    case Some(FalseText) => False
    case _ => Raises
  }

  function TextTruth(setting: Option<Text>): Truth {
    match setting
    case None => Null
    case Some(t) => if t == TrueText then True else False
  }

  /** The order in which PostgreSQL evaluates operands is open, so an operand that raises counts
      as raising, whatever the other says. */
  function OrTruth(a: Truth, b: Truth): Truth {
    if a == Raises || b == Raises then Raises
    else if a == True || b == True then True
    else if a == Null || b == Null then Null
    else False
  }

  function AndTruth(a: Truth, b: Truth): Truth {
    if a == Raises || b == Raises then Raises
    else if a == False || b == False then False
    else if a == Null || b == Null then Null
    else True
  }

  function Eval(p: Cond, c: Session, r: Row): Truth {
    match p
    case OrgIsTenant => EqualsId(r.org, Current(c, Tenant))
    case UserIsCurrent => EqualsId(r.user, Current(c, CurrentUser))
    case OrgIsNull => if r.org.None? then True else False
    case CastIsTrue(v) => CastTruth(Current(c, v))
    case TextIsTrue(v) => TextTruth(Current(c, v))
    case Or(a, b) => OrTruth(Eval(a, c, r), Eval(b, c, r))
    case And(a, b) => AndTruth(Eval(a, c, r), Eval(b, c, r))
  }

  // ----- The policies in force -----

  const TENANT_TABLE := Or(OrgIsTenant, CastIsTrue(PlatformAdmin))

  const INCIDENTS_USING :=
    Or(Or(Or(OrgIsTenant, And(OrgIsNull, TextIsTrue(OrgAdmin))), UserIsCurrent), CastIsTrue(PlatformAdmin))

  const INCIDENTS_CHECK := Or(Or(OrgIsTenant, OrgIsNull), CastIsTrue(PlatformAdmin))

  const INCIDENTS_PUBLIC_MAP := TextIsTrue(PublicMapRead)

  const IMAGES_INNER := Or(INCIDENTS_USING, TextIsTrue(PublicMapRead))

  const INVITATIONS := Or(TENANT_TABLE, TextIsTrue(TokenLookup))

  const AUDIT_USING := Or(INVITATIONS, TextIsTrue(JoinSubmission))

  const AUDIT_CHECK :=
    Or(Or(Or(Or(OrgIsTenant, OrgIsNull), CastIsTrue(PlatformAdmin)), TextIsTrue(TokenLookup)),
        TextIsTrue(JoinSubmission))

  const NOTIFICATIONS_INSERT :=
      Or(Or(Or(UserIsCurrent, OrgIsTenant), CastIsTrue(PlatformAdmin)), TextIsTrue(JoinSubmission))

  const NOTIFICATIONS_READ := UserIsCurrent

  const JOIN_REQUESTS := Or(Or(OrgIsTenant, UserIsCurrent), CastIsTrue(PlatformAdmin))

  const IN_FORCE :=
    [TENANT_TABLE, JOIN_REQUESTS, INCIDENTS_USING, INCIDENTS_CHECK, INCIDENTS_PUBLIC_MAP, IMAGES_INNER, INVITATIONS,
     AUDIT_USING, AUDIT_CHECK, NOTIFICATIONS_INSERT, NOTIFICATIONS_READ]

  /** The pool clause as it was before migration 0027. */
  const POOL_0003 := And(OrgIsNull, CastIsTrue(OrgAdmin))

  /** What the nested conditions come to. */
  lemma UsingTruth(c: Session, r: Row)
    ensures Eval(INCIDENTS_USING, c, r)
         == OrTruth(OrTruth(OrTruth(EqualsId(r.org, Current(c, Tenant)),
                                    AndTruth(if r.org.None? then True else False, TextTruth(Current(c, OrgAdmin)))),
                            EqualsId(r.user, Current(c, CurrentUser))),
                    CastTruth(Current(c, PlatformAdmin)))
  {
    var pool := And(OrgIsNull, TextIsTrue(OrgAdmin));
    assert Eval(pool, c, r) == AndTruth(if r.org.None? then True else False, TextTruth(Current(c, OrgAdmin)));
    var own := Or(OrgIsTenant, pool);
    assert Eval(own, c, r) == OrTruth(EqualsId(r.org, Current(c, Tenant)), Eval(pool, c, r));
    assert Eval(Or(own, UserIsCurrent), c, r) == OrTruth(Eval(own, c, r), EqualsId(r.user, Current(c, CurrentUser)));
  }

  lemma CheckTruth(c: Session, r: Row)
    ensures Eval(INCIDENTS_CHECK, c, r)
         == OrTruth(OrTruth(EqualsId(r.org, Current(c, Tenant)), if r.org.None? then True else False),
                    CastTruth(Current(c, PlatformAdmin)))
  {
    assert Eval(Or(OrgIsTenant, OrgIsNull), c, r)
        == OrTruth(EqualsId(r.org, Current(c, Tenant)), if r.org.None? then True else False);
  }

  /** An operand that holds decides a disjunction whose other operand does not raise. */
  lemma PlatformAdminPasses(p: Cond, c: Session, r: Row)
    requires Current(c, PlatformAdmin) == Some(TrueText) && Eval(p, c, r) != Raises
    requires p.Or?
    requires p.right == CastIsTrue(PlatformAdmin) || (p.left.Or? && p.left.right == CastIsTrue(PlatformAdmin))
    ensures Eval(p, c, r) == True
  {
    if p.left.Or? { assert Eval(p.left, c, r) == OrTruth(Eval(p.left.left, c, r), Eval(p.left.right, c, r)); }
  }

  // ----- Transactions on a connection -----

  datatype Opening =
    | Request(org: Option<nat>, user: Option<nat>, orgAdmin: bool, platformAdmin: bool)
    | System

  datatype Act =
    | Escape(v: Var)          // one of the three escape flags, set to 'true'
    | RepointTenant(org: nat) // TenantDbService.setTenant
    | Stats                   // public_platform_stats()

  predicate IsEscape(v: Var) {
    v == TokenLookup || v == JoinSubmission || v == PublicMapRead
  }

  function IdText(id: Option<nat>): Text {
    if id.Some? then Id(id.value) else Empty
  }

  function BoolText(b: bool): Text {
    if b then TrueText else FalseText
  }

  function Preamble(c: Session, o: Opening): Session {
    match o
    case Request(org, user, orgAdmin, platformAdmin) =>
      SetLocal(SetLocal(SetLocal(SetLocal(c, Tenant, IdText(org)), CurrentUser, IdText(user)),
                        OrgAdmin, BoolText(orgAdmin)), PlatformAdmin, BoolText(platformAdmin))
    case System =>
      SetLocal(SetLocal(SetLocal(SetLocal(c, PlatformAdmin, TrueText), OrgAdmin, FalseText), Tenant, Empty),
          CurrentUser, Empty)
  }

  /** coalesce(nullif(current_setting(..), ''), 'false'). */
  function Remembered(c: Session): Text {
    match Current(c, PlatformAdmin)
    case None => FalseText
    case Some(t) => if t == Empty then FalseText else t
  }

  /** The session while `public_platform_stats` counts. */
  function Counting(c: Session): Session {
    SetLocal(c, PlatformAdmin, TrueText)
  }

  function Perform(c: Session, a: Act): Session {
    match a
    case Escape(v) => if IsEscape(v) then SetLocal(c, v, TrueText) else c
    case RepointTenant(org) => SetLocal(SetLocal(c, Tenant, Id(org)), OrgAdmin, TrueText)
    case Stats => SetLocal(Counting(c), PlatformAdmin, Remembered(c))
  }

  function PerformAll(c: Session, acts: seq<Act>): Session {
    if acts == [] then c else Perform(PerformAll(c, acts[..|acts| - 1]), acts[|acts| - 1])
  }

  datatype Transaction = Transaction(opening: Opening, acts: seq<Act>)

  /** The connection after serving these transactions, as it goes back to the pool. */
  function Served(c: Session, history: seq<Transaction>): Session {
    if history == [] then c else
      var last := history[|history| - 1];
      EndTransaction(PerformAll(Preamble(Served(c, history[..|history| - 1]), last.opening), last.acts))
  }

  /** The connection in the middle of its next transaction. */
  function During(history: seq<Transaction>, o: Opening, acts: seq<Act>): Session {
    PerformAll(Preamble(Served(FRESH, history), o), acts)
  }

  // ----- What holds in the middle of any transaction -----

  ghost predicate CoreSet(c: Session) {
    && Tenant in c.local && (c.local[Tenant].Empty? || c.local[Tenant].Id?)
    && CurrentUser in c.local && (c.local[CurrentUser].Empty? || c.local[CurrentUser].Id?)
    && OrgAdmin in c.local && (c.local[OrgAdmin].TrueText? || c.local[OrgAdmin].FalseText?)
    && PlatformAdmin in c.local && (c.local[PlatformAdmin].TrueText? || c.local[PlatformAdmin].FalseText?)
  }

  lemma {:induction false} PerformKeepsCore(c: Session, acts: seq<Act>)
    requires CoreSet(c)
    ensures CoreSet(PerformAll(c, acts))
  {
    if acts != [] { PerformKeepsCore(c, acts[..|acts| - 1]); }
  }

  /** Casts only variables that every transaction sets. */
  predicate CastsCoreOnly(p: Cond) {
    match p
    case CastIsTrue(v) => v == OrgAdmin || v == PlatformAdmin
    case Or(a, b) => CastsCoreOnly(a) && CastsCoreOnly(b)
    case And(a, b) => CastsCoreOnly(a) && CastsCoreOnly(b)
    case _ => true
  }

  lemma {:induction false} CoreNeverRaises(p: Cond, c: Session, r: Row)
    requires CoreSet(c) && CastsCoreOnly(p)
    ensures Eval(p, c, r) != Raises
  {
    match p
    case Or(a, b) => CoreNeverRaises(a, c, r); CoreNeverRaises(b, c, r);
    case And(a, b) => CoreNeverRaises(a, c, r); CoreNeverRaises(b, c, r);
    case _ =>
  }

  lemma NestedCastCore()
    ensures CastsCoreOnly(TENANT_TABLE) && CastsCoreOnly(INCIDENTS_USING) && CastsCoreOnly(INCIDENTS_CHECK)
    ensures CastsCoreOnly(INVITATIONS) && CastsCoreOnly(AUDIT_CHECK)
  {
    assert CastsCoreOnly(Or(OrgIsTenant, And(OrgIsNull, TextIsTrue(OrgAdmin))));
    assert CastsCoreOnly(INCIDENTS_USING.left);
    assert CastsCoreOnly(INCIDENTS_CHECK);
    assert CastsCoreOnly(AUDIT_CHECK.left.left);
    assert CastsCoreOnly(AUDIT_CHECK.left);
  }

  lemma InForceCastsCore(p: Cond)
    requires p in IN_FORCE
    ensures CastsCoreOnly(p)
  {
    NestedCastCore();
    assert CastsCoreOnly(IMAGES_INNER) && CastsCoreOnly(AUDIT_USING);
    assert CastsCoreOnly(NOTIFICATIONS_INSERT.left);
    var i :| 0 <= i < |IN_FORCE| && IN_FORCE[i] == p;
  }

  /** Whatever transactions the connection has served and whatever the current one has done, no
      policy in force can raise, and neither can it while the statistics are being counted. */
  lemma PoliciesNeverRaise(history: seq<Transaction>, o: Opening, acts: seq<Act>, p: Cond, r: Row)
    requires p in IN_FORCE
    ensures Eval(p, During(history, o, acts), r) != Raises
    ensures Eval(p, Counting(During(history, o, acts)), r) != Raises
  {
    PerformKeepsCore(Preamble(Served(FRESH, history), o), acts);
    InForceCastsCore(p);
    CoreNeverRaises(p, During(history, o, acts), r);
    CoreNeverRaises(p, Counting(During(history, o, acts)), r);
  }

  // ----- Flags do not leak -----

  lemma {:induction false} ServedIsClosed(history: seq<Transaction>)
    ensures Served(FRESH, history).local == map[]
  {}

  lemma {:induction false} FlagDuring(c: Session, acts: seq<Act>, v: Var)
    requires IsEscape(v)
    ensures Escape(v) in acts ==> Current(PerformAll(c, acts), v) == Some(TrueText)
    ensures Escape(v) !in acts ==> (v in PerformAll(c, acts).local <==> v in c.local)
                                   && (v in c.local ==> PerformAll(c, acts).local[v] == c.local[v])
    ensures v in PerformAll(c, acts).touched <==> v in c.touched || Escape(v) in acts
  {
    if acts != [] {
      var last := |acts| - 1;
      FlagDuring(c, acts[..last], v);
      assert acts == acts[..last] + [acts[last]];
    }
  }

  /** An escape flag is on exactly if this transaction has set it. */
  lemma EscapeIsOwn(history: seq<Transaction>, o: Opening, acts: seq<Act>, v: Var)
    requires IsEscape(v)
    ensures TextTruth(Current(During(history, o, acts), v)) == True <==> Escape(v) in acts
  {
    ServedIsClosed(history);
    FlagDuring(Preamble(Served(FRESH, history), o), acts, v);
  }

  ghost predicate SetBefore(history: seq<Transaction>, v: Var) {
    exists i :: 0 <= i < |history| && Escape(v) in history[i].acts
  }

  lemma SetBeforeLast(history: seq<Transaction>, v: Var)
    requires history != []
    ensures SetBefore(history, v) <==>
        SetBefore(history[..|history| - 1], v) || Escape(v) in history[|history| - 1].acts
  {
    var last := |history| - 1;
    var before := history[..last];
    assert forall i :: 0 <= i < last ==> before[i] == history[i];
    if SetBefore(before, v) {
      var i :| 0 <= i < |before| && Escape(v) in before[i].acts;
      assert Escape(v) in history[i].acts;
    }
  }

  lemma {:induction false} TouchedIff(history: seq<Transaction>, v: Var)
    requires IsEscape(v)
    ensures v in Served(FRESH, history).touched <==> SetBefore(history, v)
  {
    if history != [] {
      var last := |history| - 1;
      var before := history[..last];
      TouchedIff(before, v);
      FlagDuring(Preamble(Served(FRESH, before), history[last].opening), history[last].acts, v);
      SetBeforeLast(history, v);
    }
  }

  lemma FlagCastRaisesIff(history: seq<Transaction>, o: Opening, acts: seq<Act>, v: Var)
    requires IsEscape(v)
    ensures CastTruth(Current(During(history, o, acts), v)) == Raises <==> SetBefore(history, v) && Escape(v) !in acts
  {
    ServedIsClosed(history);
    TouchedIff(history, v);
    FlagDuring(Preamble(Served(FRESH, history), o), acts, v);
  }

  lemma OrRaisesIff(p: Cond, v: Var, c: Session, r: Row)
    ensures Eval(Or(p, CastIsTrue(v)), c, r) == Raises <==>
        Eval(p, c, r) == Raises || CastTruth(Current(c, v)) == Raises
  {
    assert Eval(CastIsTrue(v), c, r) == CastTruth(Current(c, v));
  }

  /** The defect that migration 0023 repaired, for any policy and any of the three flags: the
      policy may raise (in some order of evaluation) exactly when an earlier transaction on the
      same connection has used the flag and this one has not. */
  lemma EscapeCastRaisesIff(history: seq<Transaction>, o: Opening, acts: seq<Act>, p: Cond, v: Var, r: Row)
    requires CastsCoreOnly(p) && IsEscape(v)
    ensures Eval(Or(p, CastIsTrue(v)), During(history, o, acts), r) == Raises
            <==> SetBefore(history, v) && Escape(v) !in acts
  {
    FlagCastRaisesIff(history, o, acts, v);
    PerformKeepsCore(Preamble(Served(FRESH, history), o), acts);
    CoreNeverRaises(p, During(history, o, acts), r);
    OrRaisesIff(p, v, During(history, o, acts), r);
  }

  lemma {:induction false} TouchedGrows(c: Session, acts: seq<Act>)
    ensures c.touched <= PerformAll(c, acts).touched
  {
    if acts != [] { TouchedGrows(c, acts[..|acts| - 1]); }
  }

  lemma CoreTouchedIff(history: seq<Transaction>)
    ensures OrgAdmin in Served(FRESH, history).touched <==> history != []
  {
    if history != [] {
      var last := |history| - 1;
      TouchedGrows(Preamble(Served(FRESH, history[..last]), history[last].opening), history[last].acts);
    }
  }

  /** Why the cron sets all four variables although it needs one: with only the platform-admin
      flag set, the old pool clause may raise on every connection that has served anything before. */
  lemma PartialOpeningRaisesIff(history: seq<Transaction>, r: Row)
    ensures Eval(POOL_0003, SetLocal(Served(FRESH, history), PlatformAdmin, TrueText), r) == Raises <==> history != []
  {
    ServedIsClosed(history);
    CoreTouchedIff(history);
  }

  // ----- Statistics -----

  /** `public_platform_stats` leaves no trace in the session, and meanwhile every row counts. */
  lemma StatsRestore(history: seq<Transaction>, o: Opening, acts: seq<Act>, r: Row)
    ensures var c := During(history, o, acts);
            && Perform(c, Stats).local == c.local
            && Perform(c, Stats).touched == c.touched
            && Eval(INCIDENTS_USING, Counting(c), r) == True
            && Eval(TENANT_TABLE, Counting(c), r) == True
  {
    var c := During(history, o, acts);
    PerformKeepsCore(Preamble(Served(FRESH, history), o), acts);
    PoliciesNeverRaise(history, o, acts, INCIDENTS_USING, r);
    PoliciesNeverRaise(history, o, acts, TENANT_TABLE, r);
    LocalIsTouched(history, o, acts, PlatformAdmin);
    PlatformAdminPasses(INCIDENTS_USING, Counting(c), r);
    PlatformAdminPasses(TENANT_TABLE, Counting(c), r);
    assert c.local[PlatformAdmin := TrueText][PlatformAdmin := c.local[PlatformAdmin]] == c.local;
  }

  lemma {:induction false} LocalIsTouchedAll(c: Session, acts: seq<Act>)
    requires c.local.Keys <= c.touched
    ensures PerformAll(c, acts).local.Keys <= PerformAll(c, acts).touched
  {
    if acts != [] { LocalIsTouchedAll(c, acts[..|acts| - 1]); }
  }

  lemma LocalIsTouched(history: seq<Transaction>, o: Opening, acts: seq<Act>, v: Var)
    ensures v in During(history, o, acts).local ==> v in During(history, o, acts).touched
  {
    ServedIsClosed(history);
    LocalIsTouchedAll(Preamble(Served(FRESH, history), o), acts);
  }

  // ----- Visibility -----

  predicate Passes(t: Truth) {
    t == True
  }

  /** Permissive policies on one table are OR-ed. */
  predicate SeesIncident(c: Session, incident: Row) {
    Passes(Eval(INCIDENTS_USING, c, incident)) || Passes(Eval(INCIDENTS_PUBLIC_MAP, c, incident))
  }

  /** EXISTS over `incidents`, which itself shows the subquery only what the session sees. */
  predicate SeesImage(c: Session, incident: Row) {
    SeesIncident(c, incident) && Passes(Eval(IMAGES_INNER, c, incident))
  }

  /** An image is readable exactly when its incident is. */
  lemma ImageFollowsIncident(history: seq<Transaction>, o: Opening, acts: seq<Act>, incident: Row)
    ensures var c := During(history, o, acts); SeesImage(c, incident) <==> SeesIncident(c, incident)
  {
    var c := During(history, o, acts);
    PoliciesNeverRaise(history, o, acts, INCIDENTS_USING, incident);
    PoliciesNeverRaise(history, o, acts, INCIDENTS_PUBLIC_MAP, incident);
    assert Eval(IMAGES_INNER, c, incident)
        == OrTruth(Eval(INCIDENTS_USING, c, incident), Eval(INCIDENTS_PUBLIC_MAP, c, incident));
  }

  predicate KeepsIdentity(a: Act) {
    a.Escape? || a.Stats?
  }

  lemma ActKeepsIdentity(c: Session, a: Act, v: Var)
    requires !IsEscape(v) && v in c.local && CoreSet(c) && KeepsIdentity(a)
    ensures v in Perform(c, a).local && Perform(c, a).local[v] == c.local[v]
  {}

  lemma {:induction false} IdentityDuring(c: Session, acts: seq<Act>, v: Var)
    requires !IsEscape(v) && v in c.local && CoreSet(c) && forall a :: a in acts ==> KeepsIdentity(a)
    ensures Current(PerformAll(c, acts), v) == Some(c.local[v])
  {
    if acts != [] {
      var last := |acts| - 1;
      assert acts[last] in acts && forall a :: a in acts[..last] ==> a in acts;
      IdentityDuring(c, acts[..last], v);
      PerformKeepsCore(c, acts[..last]);
      ActKeepsIdentity(PerformAll(c, acts[..last]), acts[last], v);
    }
  }

  lemma MemberPolicies(c: Session, ss: Workflow.Session, i: Workflow.Incident)
    requires Current(c, Tenant) == Some(Id(ss.org)) && Current(c, CurrentUser) == Some(Id(ss.user))
    requires Current(c, OrgAdmin) == Some(BoolText(ss.admin)) && Current(c, PlatformAdmin) == Some(FalseText)
    ensures Passes(Eval(INCIDENTS_USING, c, Row(i.org, Some(i.reporter)))) <==> Workflow.Visible(ss, i)
    ensures Passes(Eval(INCIDENTS_CHECK, c, Row(i.org, Some(i.reporter)))) <==> Workflow.WithCheck(ss, i)
  {
    UsingTruth(c, Row(i.org, Some(i.reporter)));
    CheckTruth(c, Row(i.org, Some(i.reporter)));
  }

  /** What the lifecycle model takes for granted: for a member's request the policies on
      incidents are its `Visible` and `WithCheck`, on any connection and whatever escape flags or
      statistics the request has used. */
  lemma PoliciesAreVisibility(history: seq<Transaction>, ss: Workflow.Session, acts: seq<Act>, i: Workflow.Incident)
    requires forall a :: a in acts ==> KeepsIdentity(a)
    ensures var c := During(history, Request(Some(ss.org), Some(ss.user), ss.admin, false), acts);
            && (Passes(Eval(INCIDENTS_USING, c, Row(i.org, Some(i.reporter)))) <==> Workflow.Visible(ss, i))
            && (Passes(Eval(INCIDENTS_CHECK, c, Row(i.org, Some(i.reporter)))) <==> Workflow.WithCheck(ss, i))
  {
    var start := Preamble(Served(FRESH, history), Request(Some(ss.org), Some(ss.user), ss.admin, false));
    IdentityDuring(start, acts, Tenant);
    IdentityDuring(start, acts, CurrentUser);
    IdentityDuring(start, acts, OrgAdmin);
    IdentityDuring(start, acts, PlatformAdmin);
    MemberPolicies(PerformAll(start, acts), ss, i);
  }

  /** And what the task model takes for granted: the policy on tasks and assignments shows a
      member's session exactly its `Scope`, which is everything for a platform admin. */
  lemma PolicyIsScope(history: seq<Transaction>, acts: seq<Act>, user: Accounts.UserId, u: Accounts.User, row: Row)
    requires u.org.Some? && row.org.Some? && forall a :: a in acts ==> KeepsIdentity(a)
    ensures var c := During(history, Request(u.org, Some(user), u.role == Accounts.OrgAdmin, u.platformAdmin), acts);
            Passes(Eval(TENANT_TABLE, c, row)) <==> Accounts.ScopeOf(u).Covers(row.org.value)
  {
    var start := Preamble(Served(FRESH, history),
        Request(u.org, Some(user), u.role == Accounts.OrgAdmin, u.platformAdmin));
    IdentityDuring(start, acts, Tenant);
    IdentityDuring(start, acts, PlatformAdmin);
  }

  /** A tick sees and may write every row of every tenant. */
  lemma SystemSeesEverything(history: seq<Transaction>, r: Row)
    ensures Passes(Eval(INCIDENTS_USING, During(history, System, []), r))
    ensures Passes(Eval(TENANT_TABLE, During(history, System, []), r))
    ensures Passes(Eval(NOTIFICATIONS_INSERT, During(history, System, []), r))
  {
    var c := During(history, System, []);
    assert c == Preamble(Served(FRESH, history), System);
    PoliciesNeverRaise(history, System, [], INCIDENTS_USING, r);
    PoliciesNeverRaise(history, System, [], TENANT_TABLE, r);
    PoliciesNeverRaise(history, System, [], NOTIFICATIONS_INSERT, r);
    PlatformAdminPasses(INCIDENTS_USING, c, r);
    PlatformAdminPasses(TENANT_TABLE, c, r);
    PlatformAdminPasses(NOTIFICATIONS_INSERT, c, r);
  }

  // ----- What each policy lets through -----

  /** The settings of a session, read as what they stand for. */
  ghost predicate Stands(c: Session, org: Option<nat>, user: Option<nat>, orgAdmin: bool, platformAdmin: bool) {
    && Current(c, Tenant) == Some(if org.Some? then Id(org.value) else Empty)
    && Current(c, CurrentUser) == Some(if user.Some? then Id(user.value) else Empty)
    && Current(c, OrgAdmin) == Some(if orgAdmin then TrueText else FalseText)
    && Current(c, PlatformAdmin) == Some(if platformAdmin then TrueText else FalseText)
  }

  predicate Same(column: Option<nat>, id: Option<nat>) {
    column.Some? && column == id
  }

  lemma OrPasses(p: Cond, q: Cond, c: Session, r: Row)
    requires Eval(p, c, r) != Raises && Eval(q, c, r) != Raises
    ensures Eval(Or(p, q), c, r) != Raises
    ensures Passes(Eval(Or(p, q), c, r)) <==> Passes(Eval(p, c, r)) || Passes(Eval(q, c, r))
  {}

  lemma AtomsPass(c: Session, r: Row, org: Option<nat>, user: Option<nat>, orgAdmin: bool, platformAdmin: bool)
    requires Stands(c, org, user, orgAdmin, platformAdmin)
    ensures Eval(OrgIsTenant, c, r) != Raises && (Passes(Eval(OrgIsTenant, c, r)) <==> Same(r.org, org))
    ensures Eval(UserIsCurrent, c, r) != Raises && (Passes(Eval(UserIsCurrent, c, r)) <==> Same(r.user, user))
    ensures Eval(OrgIsNull, c, r) != Raises && (Passes(Eval(OrgIsNull, c, r)) <==> r.org.None?)
    ensures Eval(CastIsTrue(PlatformAdmin), c, r) != Raises
    ensures Passes(Eval(CastIsTrue(PlatformAdmin), c, r)) <==> platformAdmin
    ensures Eval(And(OrgIsNull, TextIsTrue(OrgAdmin)), c, r) != Raises
    ensures Passes(Eval(And(OrgIsNull, TextIsTrue(OrgAdmin)), c, r)) <==> r.org.None? && orgAdmin
    ensures Eval(TextIsTrue(TokenLookup), c, r) != Raises && Eval(TextIsTrue(JoinSubmission), c, r) != Raises
  {
    assert Eval(TextIsTrue(OrgAdmin), c, r) == TextTruth(Current(c, OrgAdmin));
  }

  /** Who gets past the policies of tenant-owned tables, invitations and audit rows: the organisation
      itself, platform admins, and whoever opened the escape clause meant for it. */
  lemma TenantPolicies(c: Session, r: Row, org: Option<nat>, user: Option<nat>, orgAdmin: bool, platformAdmin: bool)
    requires Stands(c, org, user, orgAdmin, platformAdmin)
    ensures var token, join :=
              Current(c, TokenLookup) == Some(TrueText), Current(c, JoinSubmission) == Some(TrueText);
            && (Passes(Eval(TENANT_TABLE, c, r)) <==> Same(r.org, org) || platformAdmin)
            && (Passes(Eval(INVITATIONS, c, r)) <==> Same(r.org, org) || platformAdmin || token)
            && (Passes(Eval(AUDIT_USING, c, r)) <==> Same(r.org, org) || platformAdmin || token || join)
            && (Passes(Eval(AUDIT_CHECK, c, r)) <==>
                  Same(r.org, org) || r.org.None? || platformAdmin || token || join)
  {
    AtomsPass(c, r, org, user, orgAdmin, platformAdmin);
    OrPasses(OrgIsTenant, CastIsTrue(PlatformAdmin), c, r);
    OrPasses(TENANT_TABLE, TextIsTrue(TokenLookup), c, r);
    OrPasses(INVITATIONS, TextIsTrue(JoinSubmission), c, r);
    OrPasses(OrgIsTenant, OrgIsNull, c, r);
    OrPasses(AUDIT_CHECK.left.left.left, CastIsTrue(PlatformAdmin), c, r);
    OrPasses(AUDIT_CHECK.left.left, TextIsTrue(TokenLookup), c, r);
    OrPasses(AUDIT_CHECK.left, TextIsTrue(JoinSubmission), c, r);
  }

  /** The same for the rows that belong to a user: notifications and join requests. */
  lemma UserPolicies(c: Session, r: Row, org: Option<nat>, user: Option<nat>, orgAdmin: bool, platformAdmin: bool)
    requires Stands(c, org, user, orgAdmin, platformAdmin)
    ensures Passes(Eval(NOTIFICATIONS_READ, c, r)) <==> Same(r.user, user)
    ensures Passes(Eval(NOTIFICATIONS_INSERT, c, r)) <==>
              || Same(r.user, user) || Same(r.org, org) || platformAdmin
              || Current(c, JoinSubmission) == Some(TrueText)
    ensures Passes(Eval(JOIN_REQUESTS, c, r)) <==> Same(r.org, org) || Same(r.user, user) || platformAdmin
  {
    AtomsPass(c, r, org, user, orgAdmin, platformAdmin);
    OrPasses(UserIsCurrent, OrgIsTenant, c, r);
    OrPasses(NOTIFICATIONS_INSERT.left.left, CastIsTrue(PlatformAdmin), c, r);
    OrPasses(NOTIFICATIONS_INSERT.left, TextIsTrue(JoinSubmission), c, r);
    OrPasses(OrgIsTenant, UserIsCurrent, c, r);
    OrPasses(JOIN_REQUESTS.left, CastIsTrue(PlatformAdmin), c, r);
  }

  /** And for incidents, whoever asks: nobody signed in, a member, an admin or a platform admin. */
  lemma IncidentPolicies(c: Session, r: Row, org: Option<nat>, user: Option<nat>, orgAdmin: bool, platformAdmin: bool)
    requires Stands(c, org, user, orgAdmin, platformAdmin)
    ensures Passes(Eval(INCIDENTS_USING, c, r)) <==>
              || Same(r.org, org) || (r.org.None? && orgAdmin) || Same(r.user, user) || platformAdmin
    ensures Passes(Eval(INCIDENTS_CHECK, c, r)) <==> Same(r.org, org) || r.org.None? || platformAdmin
    ensures SeesIncident(c, r) <==>
              || Same(r.org, org) || (r.org.None? && orgAdmin) || Same(r.user, user) || platformAdmin
              || Current(c, PublicMapRead) == Some(TrueText)
  {
    AtomsPass(c, r, org, user, orgAdmin, platformAdmin);
    OrPasses(OrgIsTenant, And(OrgIsNull, TextIsTrue(OrgAdmin)), c, r);
    OrPasses(INCIDENTS_USING.left.left, UserIsCurrent, c, r);
    OrPasses(INCIDENTS_USING.left, CastIsTrue(PlatformAdmin), c, r);
    OrPasses(OrgIsTenant, OrgIsNull, c, r);
    OrPasses(INCIDENTS_CHECK.left, CastIsTrue(PlatformAdmin), c, r);
  }

  /** On any connection a request stands for what it was opened with, whatever escape flags it sets and
      whether or not it counts the statistics; and an escape clause is open to it exactly if it set the
      flag itself. */
  lemma RequestStands(history: seq<Transaction>, acts: seq<Act>, org: Option<nat>, user: Option<nat>,
      orgAdmin: bool, platformAdmin: bool, v: Var)
    requires IsEscape(v) && forall a :: a in acts ==> KeepsIdentity(a)
    ensures var c := During(history, Request(org, user, orgAdmin, platformAdmin), acts);
            && Stands(c, org, user, orgAdmin, platformAdmin)
            && (Current(c, v) == Some(TrueText) <==> Escape(v) in acts)
  {
    var start := Preamble(Served(FRESH, history), Request(org, user, orgAdmin, platformAdmin));
    IdentityDuring(start, acts, Tenant);
    IdentityDuring(start, acts, CurrentUser);
    IdentityDuring(start, acts, OrgAdmin);
    IdentityDuring(start, acts, PlatformAdmin);
    EscapeIsOwn(history, Request(org, user, orgAdmin, platformAdmin), acts, v);
  }

  /** A request that is given another tenant stands for that tenant's admin from then on. */
  lemma RepointOutcome(c: Session, org: Option<nat>, user: Option<nat>, orgAdmin: bool, platformAdmin: bool, to: nat)
    requires Stands(c, org, user, orgAdmin, platformAdmin)
    ensures Stands(Perform(c, RepointTenant(to)), Some(to), user, true, platformAdmin)
    ensures forall v :: IsEscape(v) ==> Current(Perform(c, RepointTenant(to)), v) == Current(c, v)
  {}

  /** Nothing that a transaction set is left on the connection it gives back. */
  lemma NothingLeftBehind(c: Session, t: Transaction, v: Var)
    ensures var c' := EndTransaction(PerformAll(Preamble(c, t.opening), t.acts));
            Current(c', v) == None || Current(c', v) == Some(Empty)
  {}

  // ----- The same, statement by statement -----

  class Connection {
    var touched: set<Var>
    var local: map<Var, Text>

    constructor ()
      ensures Now() == FRESH
    {
      touched, local := {}, map[];
    }

    function Now(): Session
      reads this
    {
      Session(touched, local)
    }

    method SetConfig(v: Var, t: Text)
      modifies this
      ensures Now() == SetLocal(old(Now()), v, t)
    {
      touched, local := touched + {v}, local[v := t];
    }

    /** The four settings at the start of `runInTenantTransaction`. */
    method OpenRequest(org: Option<nat>, user: Option<nat>, orgAdmin: bool, platformAdmin: bool)
      modifies this
      ensures Now() == Preamble(old(Now()), Request(org, user, orgAdmin, platformAdmin))
    {
      SetConfig(Tenant, if org.Some? then Id(org.value) else Empty);
      SetConfig(CurrentUser, if user.Some? then Id(user.value) else Empty);
      SetConfig(OrgAdmin, if orgAdmin then TrueText else FalseText);
      SetConfig(PlatformAdmin, if platformAdmin then TrueText else FalseText);
    }

    /** The same four at the start of `runAsSystem`. */
    method OpenSystem()
      modifies this
      ensures Now() == Preamble(old(Now()), System)
    {
      SetConfig(PlatformAdmin, TrueText);
      SetConfig(OrgAdmin, FalseText);
      SetConfig(Tenant, Empty);
      SetConfig(CurrentUser, Empty);
    }

    method PublicPlatformStats(rows: seq<Row>) returns (count: nat)
      requires CoreSet(Now())
      modifies this
      ensures Now() == Perform(old(Now()), Stats)
      ensures count == |rows|
    {
      var previous := Remembered(Now());
      SetConfig(PlatformAdmin, TrueText);
      count := 0;
      for i := 0 to |rows|
        invariant Now() == Counting(old(Now())) && count == i
      {
        CoreNeverRaises(TENANT_TABLE, Now(), rows[i]);
        PlatformAdminPasses(TENANT_TABLE, Now(), rows[i]);
        if Passes(Eval(TENANT_TABLE, Now(), rows[i])) { count := count + 1; }
      }
      SetConfig(PlatformAdmin, previous);
    }

    /** A whole transaction, up to the connection's return to the pool. */
    method Serve(t: Transaction)
      modifies this
      ensures Now() == EndTransaction(PerformAll(Preamble(old(Now()), t.opening), t.acts))
    {
      match t.opening {
        case Request(org, user, orgAdmin, platformAdmin) => OpenRequest(org, user, orgAdmin, platformAdmin);
        case System => OpenSystem();
      }
      ghost var begun := Now();
      for i := 0 to |t.acts|
        invariant Now() == PerformAll(begun, t.acts[..i])
      {
        assert t.acts[..i + 1][..i] == t.acts[..i];
        PerformKeepsCore(begun, t.acts[..i]);
        match t.acts[i] {
          case Escape(v) => if IsEscape(v) { SetConfig(v, TrueText); }
          case RepointTenant(org) =>
            SetConfig(Tenant, Id(org));
            SetConfig(OrgAdmin, TrueText);
          case Stats => var _ := PublicPlatformStats([]);
        }
      }
      assert t.acts[..|t.acts|] == t.acts;
      local := map[];
    }
  }
}
