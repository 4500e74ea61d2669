/** Users and their single membership, as `users` rows hold them. The table is not protected by
    row-level security and every module reads it. */
module Accounts {
  import opened Common

  type OrgId = nat
  type UserId = nat

  /** The account that history is repointed to when its owner is deleted (migration 0029). */
  const SENTINEL: UserId := 0

  datatype Role = Citizen | Volunteer | OrgAdmin

  /** No request sets `platformAdmin`; accounts that have it were given it in the database. */
  datatype User = User(org: Option<OrgId>, role: Role, active: bool, platformAdmin: bool)

  type Users = map<UserId, User>

  predicate IsMember(users: Users, org: OrgId, user: UserId) {
    user in users && users[user].org == Some(org)
  }

  /** TenantGuard lets a platform admin into the routes of every organisation. */
  predicate MayEnter(users: Users, org: OrgId, user: UserId) {
    IsMember(users, org, user) || (user in users && users[user].platformAdmin)
  }

  /** What row-level security shows a session of tenant-owned tables: the rows of its own
      organisation, or all rows if the account is a platform admin (migration 0003). */
  datatype Scope = Only(org: OrgId) | Everywhere
  {
    predicate Covers(o: OrgId) {
      Only? ==> org == o
    }
  }

  function ScopeOf(u: User): Scope
    requires u.org.Some?
  {
    if u.platformAdmin then Everywhere else Only(u.org.value)
  }

  predicate IsActiveVolunteer(users: Users, org: OrgId, user: UserId) {
    IsMember(users, org, user) && users[user].active && users[user].role == Volunteer
  }

  predicate HasOtherAdmin(users: Users, org: OrgId, user: UserId) {
    exists u | u in users :: u != user && users[u].org == Some(org) && users[u].role == OrgAdmin && users[u].active
  }

  datatype AccountError = NoSession | LastAdmin | CannotRemoveSelf | NotMember | NotVolunteer | IdTaken

  /** The pre-check of `removeVolunteer`. */
  function CheckRemoval(users: Users, org: OrgId, user: UserId, acting: UserId): (r: Option<AccountError>)
    ensures r.None? ==> IsMember(users, org, user)
  {
    if user == acting then Some(CannotRemoveSelf)
    else if !IsMember(users, org, user) then Some(NotMember)
    else if users[user].role != Volunteer then Some(NotVolunteer)
    else None
  }

  /** The pre-check of `deleteAccount`: the last admin may not leave, and nobody signs in as the
      sentinel. */
  function CheckDeletion(users: Users, user: UserId): Option<AccountError> {
    if user == SENTINEL then Some(NoSession)
    else if user in users && users[user].role == OrgAdmin && users[user].org.Some?
            && !HasOtherAdmin(users, users[user].org.value, user) then Some(LastAdmin)
    else None
  }

  /** `setMembership(null, citizen)`. */
  function Dismiss(users: Users, user: UserId): Users
    requires user in users
  {
    users[user := users[user].(org := None, role := Citizen)]
  }

  function Provision(users: Users, user: UserId): Result<Users, AccountError> {
    if user in users then Err(IdTaken) else Ok(users[user := User(None, Citizen, true, false)])
  }

  /** Every way into an organisation ends in `setMembership`; it never touches `isActive`. */
  function SetMembership(users: Users, user: UserId, org: OrgId, role: Role): Result<Users, AccountError> {
    if user !in users then Err(NotMember)
    else Ok(users[user := users[user].(org := Some(org), role := role)])
  }

  // ----- What the accounts part of each request does -----

  /** Only another account that is a volunteer of the organisation can be removed from it. */
  lemma RemovalAllowedIff(users: Users, org: OrgId, user: UserId, acting: UserId)
    ensures CheckRemoval(users, org, user, acting).None?
            <==> user != acting && user in users && users[user].org == Some(org) && users[user].role == Volunteer
    ensures CheckRemoval(users, org, user, acting) == Some(CannotRemoveSelf) <==> user == acting
    ensures CheckRemoval(users, org, user, acting) == Some(NotMember)
            <==> user != acting && (user in users ==> users[user].org != Some(org))
  {}

  /** Deletion is refused for the sentinel, and for an admin of an organisation in which every
      other admin is deactivated. */
  lemma DeletionAllowedIff(users: Users, user: UserId)
    ensures CheckDeletion(users, user) == Some(NoSession) <==> user == SENTINEL
    ensures CheckDeletion(users, user) == Some(LastAdmin)
            <==> && user != SENTINEL && user in users && users[user].role == OrgAdmin && users[user].org.Some?
                 && forall u :: u in users && u != user && users[u].org == users[user].org && users[u].role == OrgAdmin
                                ==> !users[u].active
    ensures CheckDeletion(users, user) in {None, Some(NoSession), Some(LastAdmin)}
  {}

  /** Whoever is dismissed keeps the account and its flags, but belongs nowhere; nobody else changes. */
  lemma DismissalEndsMembership(users: Users, user: UserId)
    requires user in users
    ensures var users' := Dismiss(users, user);
            && users'.Keys == users.Keys
            && users'[user].org.None? && users'[user].role == Citizen
            && users'[user].active == users[user].active && users'[user].platformAdmin == users[user].platformAdmin
            && (forall u :: u in users && u != user ==> users'[u] == users[u])
            && (forall org :: !IsMember(users', org, user))
  {}

  /** An account starts outside every organisation, active and without privileges. Joining sets the
      organisation and the role; the role, the flags and the accounts of others stay. */
  lemma JoiningOutcome(users: Users, user: UserId, org: OrgId, role: Role)
    ensures Provision(users, user).Ok? <==> user !in users
    ensures user !in users ==> Provision(users, user).value == users[user := User(None, Citizen, true, false)]
    ensures SetMembership(users, user, org, role).Ok? <==> user in users
    ensures user in users ==>
              var users' := SetMembership(users, user, org, role).value;
              && users'.Keys == users.Keys
              && users'[user] == User(Some(org), role, users[user].active, users[user].platformAdmin)
              && forall u :: u in users && u != user ==> users'[u] == users[u]
  {}
}
