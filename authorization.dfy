/** Authorization checks over the memberships table, and the role repair
  * `updateUserRole`, which creates or updates the one membership of a
  * (user, organization) pair. */
module Authorization {
  import opened Common
  import opened Store
  import opened MembershipRepository
  import SyncProperties

  // ------------------------------------------------------------------
  // Queries
  // ------------------------------------------------------------------

  /** `getUserByClerkId` */
  function GetUserByClerkId(s: State, clerkUserId: string): (r: Option<User>)
    ensures r.Some? ==> r.value in s.users && r.value.clerkUserId == clerkUserId
    ensures r.None? <==> forall u :: u in s.users ==> u.clerkUserId != clerkUserId
  {
    FindUser(s.users, clerkUserId)
  }

  /** The caller's membership of the organization, if any. */
  ghost predicate MemberOf(s: State, user: User, organizationId: int, m: Membership)
  {
    m in s.memberships && m.userId == user.id && m.organizationId == organizationId
  }

  /** `hasAccessToOrganization` */
  function HasAccessToOrganization(s: State, clerkUserId: string, organizationId: int): (r: bool)
    ensures r <==> GetUserByClerkId(s, clerkUserId).Some? &&
                   exists m :: MemberOf(s, GetUserByClerkId(s, clerkUserId).value, organizationId, m)
  {
    match FindUser(s.users, clerkUserId)
    case None => false
    case Some(user) =>
      var found := FindByUserIdAndOrganizationId(s.memberships, user.id, organizationId);
      assert found.Some? ==> MemberOf(s, user, organizationId, found.value);
      found.Some?
  }

  /** `hasRole`: the requested role name is upper-cased before the query. */
  function HasRole(s: State, clerkUserId: string, organizationId: int, roleName: string): (r: bool)
    ensures r <==> GetUserByClerkId(s, clerkUserId).Some? &&
                   exists m :: MemberOf(s, GetUserByClerkId(s, clerkUserId).value, organizationId, m)
                               && m.roleName == ToUpper(roleName)
  {
    match FindUser(s.users, clerkUserId)
    case None => false
    case Some(user) =>
      var found := FindByUserIdAndOrganizationIdAndRoleName(s.memberships, user.id, organizationId, ToUpper(roleName));
      assert found.Some? ==> MemberOf(s, user, organizationId, found.value);
      found.Some?
  }

  /** `isAdmin` */
  function IsAdmin(s: State, clerkUserId: string, organizationId: int): (r: bool)
    ensures r <==> GetUserByClerkId(s, clerkUserId).Some? &&
                   exists m :: MemberOf(s, GetUserByClerkId(s, clerkUserId).value, organizationId, m)
                               && m.roleName == "ADMIN"
  {
    HasRole(s, clerkUserId, organizationId, "ADMIN")
  }

  /** `getMembership` */
  function GetMembership(s: State, clerkUserId: string, organizationId: int): (r: Option<Membership>)
    ensures r.Some? <==> HasAccessToOrganization(s, clerkUserId, organizationId)
    ensures r.Some? ==> MemberOf(s, GetUserByClerkId(s, clerkUserId).value, organizationId, r.value)
  {
    match FindUser(s.users, clerkUserId)
    case None => None
    case Some(user) => FindByUserIdAndOrganizationId(s.memberships, user.id, organizationId)
  }

  /** How a repository query went: it answered, or it raised a data-access
    * exception; `resourceUsage` marks an InvalidDataAccessResourceUsageException. */
  datatype QueryResult = Answered | Raised(message: string, resourceUsage: bool)

  /** The exception the admin check retries after. */
  predicate PreparedStatementConflict(q: QueryResult)
  {
    q.Raised? && q.resourceUsage && Contains(q.message, "prepared statement")
  }

  ghost predicate AdminSomewhere(s: State, userId: int)
  {
    exists m :: m in s.memberships && m.userId == userId && m.roleName == "ADMIN"
  }

  lemma AdminFoundIffSomewhere(s: State, userId: int)
    ensures |FindAdminMembershipsByUserId(s.memberships, userId)| > 0 <==> AdminSomewhere(s, userId)
  {
    var admin := FindAdminMembershipsByUserId(s.memberships, userId);
    if |admin| > 0 {
      assert admin[0] in admin;
    }
    if AdminSomewhere(s, userId) {
      var m :| m in s.memberships && m.userId == userId && m.roleName == "ADMIN";
      assert m in admin;
    }
  }

  /** `retryAdminCheckInNewTransaction`: a positive count, and false when the
    * retry fails too. */
  function RetryAdminCheck(s: State, userId: int, retry: QueryResult): (r: bool)
    ensures r <==> retry.Answered? && AdminSomewhere(s, userId)
  {
    CountAdminIsSizeOfFind(s.memberships, userId);
    AdminFoundIffSomewhere(s, userId);
    retry.Answered? && CountAdminMembershipsByUserId(s.memberships, userId) > 0
  }

  /** `isAdminInAnyOrganization`. `first` is how the admin-memberships query
    * went and `retry` how the retried count went. The retry is modelled as
    * the independent query that its `REQUIRES_NEW` annotation intends; the
    * surrounding transaction is not modelled. */
  function IsAdminInAnyOrganization(s: State, clerkUserId: string, first: QueryResult, retry: QueryResult)
    : (r: Attempt<bool>)
    ensures GetUserByClerkId(s, clerkUserId).None? ==> r == Ok(false)
    ensures r.Thrown? <==> GetUserByClerkId(s, clerkUserId).Some? && first.Raised? && !PreparedStatementConflict(first)
    ensures r.Thrown? ==> r.message == first.message
    ensures r == Ok(true) ==> AdminSomewhere(s, GetUserByClerkId(s, clerkUserId).value.id)
  {
    match FindUser(s.users, clerkUserId)
    case None => Ok(false)
    case Some(user) =>
      if first.Answered? then
        AdminFoundIffSomewhere(s, user.id);
        Ok(|FindAdminMembershipsByUserId(s.memberships, user.id)| > 0)
      else if PreparedStatementConflict(first) then Ok(RetryAdminCheck(s, user.id, retry))
      else Thrown(first.message)
  }

  // ------------------------------------------------------------------
  // Properties of the queries
  // ------------------------------------------------------------------

  /** An unknown user is denied everything. */
  lemma UnknownUserIsDenied(s: State, clerkUserId: string, organizationId: int, roleName: string,
                            first: QueryResult, retry: QueryResult)
    requires forall u :: u in s.users ==> u.clerkUserId != clerkUserId
    ensures !HasAccessToOrganization(s, clerkUserId, organizationId)
    ensures !HasRole(s, clerkUserId, organizationId, roleName) && !IsAdmin(s, clerkUserId, organizationId)
    ensures GetMembership(s, clerkUserId, organizationId).None?
    ensures IsAdminInAnyOrganization(s, clerkUserId, first, retry) == Ok(false)
  {
  }

  /** Role names are compared after upper-casing, so `hasRole(…, "admin")`
    * is `isAdmin`. */
  lemma HasRoleIgnoresCase(s: State, clerkUserId: string, organizationId: int, a: string, b: string)
    requires ToUpper(a) == ToUpper(b)
    ensures HasRole(s, clerkUserId, organizationId, a) == HasRole(s, clerkUserId, organizationId, b)
  {
  }

  lemma AdminInLowerCaseIsAdmin(s: State, clerkUserId: string, organizationId: int)
    ensures HasRole(s, clerkUserId, organizationId, "admin") == IsAdmin(s, clerkUserId, organizationId)
  {
    assert ToUpper("admin") == "ADMIN";
  }

  /** With one membership per pair, holding a role is having the membership
    * and that membership carrying the role. */
  lemma HasRoleIsMembershipRole(s: State, clerkUserId: string, organizationId: int, roleName: string)
    requires Valid(s)
    ensures HasRole(s, clerkUserId, organizationId, roleName) <==>
            GetMembership(s, clerkUserId, organizationId).Some? &&
            GetMembership(s, clerkUserId, organizationId).value.roleName == ToUpper(roleName)
    ensures HasRole(s, clerkUserId, organizationId, roleName) ==> HasAccessToOrganization(s, clerkUserId, organizationId)
  {
    var user := FindUser(s.users, clerkUserId);
    if user.Some? {
      RoleQueryRefinesPairQuery(s.memberships, user.value.id, organizationId, ToUpper(roleName));
    }
  }

  /** Whenever the check reaches an answer, being an admin somewhere is being
    * the admin of some organization. */
  lemma AdminAnywhereIsAdminOfSome(s: State, clerkUserId: string, first: QueryResult, retry: QueryResult)
    requires first.Answered? || (PreparedStatementConflict(first) && retry.Answered?)
    ensures IsAdminInAnyOrganization(s, clerkUserId, first, retry) == Ok(true) <==>
            exists organizationId :: IsAdmin(s, clerkUserId, organizationId)
  {
    var user := FindUser(s.users, clerkUserId);
    if user.Some? && AdminSomewhere(s, user.value.id) {
      var m :| m in s.memberships && m.userId == user.value.id && m.roleName == "ADMIN";
      assert MemberOf(s, user.value, m.organizationId, m);
      assert IsAdmin(s, clerkUserId, m.organizationId);
    }
  }

  /** A failing retry is a "no", never an error. */
  lemma FailedRetryDenies(s: State, clerkUserId: string, first: QueryResult, retry: QueryResult)
    requires PreparedStatementConflict(first) && retry.Raised?
    ensures IsAdminInAnyOrganization(s, clerkUserId, first, retry) == Ok(false)
  {
  }

  // ------------------------------------------------------------------
  // updateUserRole
  // ------------------------------------------------------------------

  /** The clerk membership id of a membership the role repair creates. */
  function RepairMembershipId(userId: int, organizationId: int, nowMillis: int): string
  {
    "mem_fix_" + IntToString(userId) + "_" + IntToString(organizationId) + "_" + IntToString(nowMillis)
  }

  /** A repair id is marked as such: it starts with `mem_fix_` and carries
    * three numbers after it. */
  lemma RepairMembershipIdIsMarked(userId: int, organizationId: int, nowMillis: int)
    ensures StartsWith(RepairMembershipId(userId, organizationId, nowMillis), "mem_fix_")
    ensures |RepairMembershipId(userId, organizationId, nowMillis)| >= |"mem_fix_"| + 5
  {
  }

  /** The unique-constraint violation of an insert whose clerk membership
    * id is taken; the transaction rolls back. */
  const DuplicateMembershipId := "duplicate key value violates unique constraint on clerk_membership_id"

  datatype RoleUpdate = RoleUpdate(result: Attempt<bool>, state: State)

  /** The membership change of a successful repair: the pair's membership
    * gets the role, or a new membership is inserted with the next identity. */
  function PutRole(s: State, userId: int, organizationId: int, role: string, clerkMembershipId: string): (r: State)
    ensures r.users == s.users && r.organizations == s.organizations && r.roles == s.roles
    ensures r.userEvents == s.userEvents && r.organizationEvents == s.organizationEvents
    ensures PairIndex(s.memberships, userId, organizationId).Some? ==>
              r.nextId == s.nextId && |r.memberships| == |s.memberships|
    ensures PairIndex(s.memberships, userId, organizationId).None? ==>
              r.nextId == s.nextId + 1 && r.memberships == s.memberships + [Membership(s.nextId, userId, organizationId, role, clerkMembershipId)]
  {
    match PairIndex(s.memberships, userId, organizationId)
    case Some(i) => s.(memberships := s.memberships[i := s.memberships[i].(roleName := role)])
    case None =>
      s.(memberships := s.memberships + [Membership(s.nextId, userId, organizationId, role, clerkMembershipId)],
         nextId := s.nextId + 1)
  }

  /** `updateUserRole` as a transition: the result and the new state. */
  function AssignRole(s: State, clerkUserId: string, organizationId: int, roleName: string, nowMillis: int)
    : (r: RoleUpdate)
    ensures r.result != Ok(true) ==> r.state == s
    ensures r.result == Ok(false) <==>
              GetUserByClerkId(s, clerkUserId).None? || OrganizationIndexById(s.organizations, organizationId).None?
              || ToUpper(roleName) !in s.roles
    ensures r.result == Ok(true) ==>
              var user := GetUserByClerkId(s, clerkUserId).value;
              r.state == PutRole(s, user.id, organizationId, ToUpper(roleName), RepairMembershipId(user.id, organizationId, nowMillis))
    ensures r.state.users == s.users && r.state.organizations == s.organizations && r.state.roles == s.roles
    ensures r.state.userEvents == s.userEvents && r.state.organizationEvents == s.organizationEvents
  {
    match FindUser(s.users, clerkUserId)
    case None => RoleUpdate(Ok(false), s)
    case Some(user) =>
      if OrganizationIndexById(s.organizations, organizationId).None? || ToUpper(roleName) !in s.roles then
        RoleUpdate(Ok(false), s)
      else
        var clerkMembershipId := RepairMembershipId(user.id, organizationId, nowMillis);
        if PairIndex(s.memberships, user.id, organizationId).None? && MembershipIndex(s.memberships, clerkMembershipId).Some? then
          RoleUpdate(Thrown(DuplicateMembershipId), s)
        else
          RoleUpdate(Ok(true), PutRole(s, user.id, organizationId, ToUpper(roleName), clerkMembershipId))
  }

  lemma PutRoleKeepsValid(s: State, userId: int, organizationId: int, role: string, clerkMembershipId: string)
    requires Valid(s)
    requires UserIndexById(s.users, userId).Some? && OrganizationIndexById(s.organizations, organizationId).Some?
    requires PairIndex(s.memberships, userId, organizationId).None? ==> MembershipIndex(s.memberships, clerkMembershipId).None?
    requires role in s.roles
    ensures Valid(PutRole(s, userId, organizationId, role, clerkMembershipId))
  {
    match PairIndex(s.memberships, userId, organizationId)
    case Some(i) =>
      SyncProperties.RekeyMembershipKeepsValid(s, i, role, s.memberships[i].clerkMembershipId);
      assert s.memberships[i].(roleName := role, clerkMembershipId := s.memberships[i].clerkMembershipId)
          == s.memberships[i].(roleName := role);
    case None =>
      SyncProperties.AddMembershipKeepsValid(s, Membership(s.nextId, userId, organizationId, role, clerkMembershipId));
  }

  /** After `PutRole` the pair's one membership carries the role. */
  lemma PutRoleSetsPair(s: State, userId: int, organizationId: int, role: string, clerkMembershipId: string)
    requires Valid(PutRole(s, userId, organizationId, role, clerkMembershipId))
    ensures var ms := PutRole(s, userId, organizationId, role, clerkMembershipId).memberships;
            PairIndex(ms, userId, organizationId).Some? && ms[PairIndex(ms, userId, organizationId).value].roleName == role
  {
    var ms := PutRole(s, userId, organizationId, role, clerkMembershipId).memberships;
    var j := match PairIndex(s.memberships, userId, organizationId) case Some(i) => i case None => |s.memberships|;
    assert ms[j].userId == userId && ms[j].organizationId == organizationId && ms[j].roleName == role;
    PairLookupIsTheOnlyRow(ms, userId, organizationId, j);
  }

  /** An existing membership keeps everything but its role; no other row
    * changes. */
  lemma ExistingMembershipOnlyChangesRole(s: State, clerkUserId: string, organizationId: int, roleName: string,
                                          nowMillis: int)
    requires HasAccessToOrganization(s, clerkUserId, organizationId)
    ensures var r := AssignRole(s, clerkUserId, organizationId, roleName, nowMillis);
            var user := GetUserByClerkId(s, clerkUserId).value;
            && r.state.nextId == s.nextId
            && |r.state.memberships| == |s.memberships|
            && forall k :: 0 <= k < |s.memberships| ==>
                 r.state.memberships[k].(roleName := s.memberships[k].roleName) == s.memberships[k]
                 && (r.state.memberships[k] != s.memberships[k] ==> MemberOf(s, user, organizationId, s.memberships[k]))
  {
  }

  /** A missing membership is created with a `mem_fix_` clerk id and the
    * next identity. */
  lemma MissingMembershipIsCreated(s: State, clerkUserId: string, organizationId: int, roleName: string,
                                   nowMillis: int)
    requires GetUserByClerkId(s, clerkUserId).Some? && !HasAccessToOrganization(s, clerkUserId, organizationId)
    ensures var r := AssignRole(s, clerkUserId, organizationId, roleName, nowMillis);
            var user := GetUserByClerkId(s, clerkUserId).value;
            r.result == Ok(true) ==>
              r.state.memberships == s.memberships + [Membership(s.nextId, user.id, organizationId, ToUpper(roleName),
                                                                 RepairMembershipId(user.id, organizationId, nowMillis))]
              && r.state.nextId == s.nextId + 1
    ensures var r := AssignRole(s, clerkUserId, organizationId, roleName, nowMillis);
            var user := GetUserByClerkId(s, clerkUserId).value;
            r.result.Thrown? <==>
              OrganizationIndexById(s.organizations, organizationId).Some? && ToUpper(roleName) in s.roles
              && exists m :: m in s.memberships && m.clerkMembershipId == RepairMembershipId(user.id, organizationId, nowMillis)
  {
    var user := GetUserByClerkId(s, clerkUserId).value;
    var cid := RepairMembershipId(user.id, organizationId, nowMillis);
    var found := MembershipIndex(s.memberships, cid);
    if found.Some? {
      assert s.memberships[found.value] in s.memberships;
    }
  }

  lemma UpdateUserRoleKeepsValid(s: State, clerkUserId: string, organizationId: int, roleName: string, nowMillis: int)
    requires Valid(s)
    ensures Valid(AssignRole(s, clerkUserId, organizationId, roleName, nowMillis).state)
  {
    var r := AssignRole(s, clerkUserId, organizationId, roleName, nowMillis);
    if r.result == Ok(true) {
      var u := GetUserByClerkId(s, clerkUserId).value;
      var k :| 0 <= k < |s.users| && s.users[k] == u;
      assert UserIndexById(s.users, u.id).Some?;
      PutRoleKeepsValid(s, u.id, organizationId, ToUpper(roleName), RepairMembershipId(u.id, organizationId, nowMillis));
    }
  }

  /** Under UNIQUE(user_id, organization_id), the row the pair lookup finds
    * is the pair's only row. */
  lemma PairRowIsOnlyRow(ms: seq<Membership>, userId: int, organizationId: int)
    requires UniqueBy(ms, MembershipPairKey)
    requires PairIndex(ms, userId, organizationId).Some?
    ensures forall m :: m in ms && m.userId == userId && m.organizationId == organizationId ==>
                        m == ms[PairIndex(ms, userId, organizationId).value]
  {
    var i := PairIndex(ms, userId, organizationId).value;
    forall m | m in ms && m.userId == userId && m.organizationId == organizationId
      ensures m == ms[i]
    {
      var a :| 0 <= a < |ms| && ms[a] == m;
      assert MembershipPairKey(ms[a]) == MembershipPairKey(ms[i]);
    }
  }

  /** After a successful repair the user has exactly one membership in the
    * organization, and it carries the requested role. */
  lemma RepairLeavesOneMembershipWithRole(s: State, clerkUserId: string, organizationId: int, roleName: string,
                                          nowMillis: int)
    requires Valid(s)
    requires AssignRole(s, clerkUserId, organizationId, roleName, nowMillis).result == Ok(true)
    ensures var s' := AssignRole(s, clerkUserId, organizationId, roleName, nowMillis).state;
            var user := GetUserByClerkId(s, clerkUserId).value;
            && (exists m :: MemberOf(s', user, organizationId, m) && m.roleName == ToUpper(roleName))
            && (forall m1, m2 :: MemberOf(s', user, organizationId, m1) && MemberOf(s', user, organizationId, m2) ==> m1 == m2)
    ensures var s' := AssignRole(s, clerkUserId, organizationId, roleName, nowMillis).state;
            HasRole(s', clerkUserId, organizationId, roleName)
  {
    var s' := AssignRole(s, clerkUserId, organizationId, roleName, nowMillis).state;
    var user := GetUserByClerkId(s, clerkUserId).value;
    UpdateUserRoleKeepsValid(s, clerkUserId, organizationId, roleName, nowMillis);
    PutRoleSetsPair(s, user.id, organizationId, ToUpper(roleName), RepairMembershipId(user.id, organizationId, nowMillis));
    var i := PairIndex(s'.memberships, user.id, organizationId).value;
    assert MemberOf(s', user, organizationId, s'.memberships[i]);
    PairRowIsOnlyRow(s'.memberships, user.id, organizationId);
  }

  /** Repeating a successful repair changes nothing, whatever the clock says. */
  lemma RepairIsIdempotent(s: State, clerkUserId: string, organizationId: int, roleName: string,
                           nowMillis: int, laterMillis: int)
    requires Valid(s)
    requires AssignRole(s, clerkUserId, organizationId, roleName, nowMillis).result == Ok(true)
    ensures var once := AssignRole(s, clerkUserId, organizationId, roleName, nowMillis).state;
            AssignRole(once, clerkUserId, organizationId, roleName, laterMillis) == RoleUpdate(Ok(true), once)
  {
    var once := AssignRole(s, clerkUserId, organizationId, roleName, nowMillis).state;
    var user := GetUserByClerkId(s, clerkUserId).value;
    UpdateUserRoleKeepsValid(s, clerkUserId, organizationId, roleName, nowMillis);
    PutRoleSetsPair(s, user.id, organizationId, ToUpper(roleName), RepairMembershipId(user.id, organizationId, nowMillis));
    var i := PairIndex(once.memberships, user.id, organizationId).value;
    assert once.memberships[i := once.memberships[i].(roleName := ToUpper(roleName))] == once.memberships;
    assert GetUserByClerkId(once, clerkUserId) == Some(user);
  }

  // ------------------------------------------------------------------
  // The service
  // ------------------------------------------------------------------

  class AuthorizationService {
    const db: Database

    constructor (db: Database)
      ensures this.db == db
    {
      this.db := db;
    }

    /** `updateUserRole`: `setRole` on the found membership, or `save` of a
      * new one. */
    method UpdateUserRole(clerkUserId: string, organizationId: int, roleName: string, nowMillis: int)
      returns (result: Attempt<bool>)
      modifies db
      ensures RoleUpdate(result, db.Snapshot())
              == AssignRole(old(db.Snapshot()), clerkUserId, organizationId, roleName, nowMillis)
    {
      var user := FindUser(db.users, clerkUserId);
      if user.None? {
        return Ok(false);
      }
      if OrganizationIndexById(db.organizations, organizationId).None? {
        return Ok(false);
      }
      var role := ToUpper(roleName);
      if role !in db.roles {
        return Ok(false);
      }
      var existing := PairIndex(db.memberships, user.value.id, organizationId);
      assert user.value == GetUserByClerkId(old(db.Snapshot()), clerkUserId).value;
      if existing.Some? {
        var i := existing.value;
        db.memberships := db.memberships[i := db.memberships[i].(roleName := role)];
      } else {
        var clerkMembershipId := RepairMembershipId(user.value.id, organizationId, nowMillis);
        if MembershipIndex(db.memberships, clerkMembershipId).Some? {
          return Thrown(DuplicateMembershipId);
        }
        var id := db.NewId();
        db.memberships := db.memberships + [Membership(id, user.value.id, organizationId, role, clerkMembershipId)];
      }
      return Ok(true);
    }
  }
}
