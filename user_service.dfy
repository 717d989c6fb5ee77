/** The admin-only user listings: the admin gate, the default sort, and the
  * per-user summaries (organizations, roles, whether an admin). */
module UserService {
  import opened Common
  import opened Store
  import opened MembershipRepository
  import Authorization

  // ------------------------------------------------------------------
  // Paging requests
  // ------------------------------------------------------------------

  datatype Direction = Asc | Desc

  datatype Order = Order(direction: Direction, property: string)

  /** A Spring Data `Pageable`; an empty `sort` is unsorted. */
  datatype Pageable = Pageable(pageNumber: int, pageSize: int, sort: seq<Order>)

  const NewestFirst := [Order(Desc, "createdAt")]

  /** An unsorted request is sorted newest first; page and size are kept. */
  function WithDefaultSort(p: Pageable): (r: Pageable)
    ensures r.pageNumber == p.pageNumber && r.pageSize == p.pageSize
    ensures r.sort != []
    ensures p.sort != [] ==> r == p
    ensures p.sort == [] ==> r.sort == NewestFirst
  {
    if p.sort == [] then Pageable(p.pageNumber, p.pageSize, NewestFirst) else p
  }

  lemma DefaultSortIsIdempotent(p: Pageable)
    ensures WithDefaultSort(WithDefaultSort(p)) == WithDefaultSort(p)
  {
  }

  // ------------------------------------------------------------------
  // Responses
  // ------------------------------------------------------------------

  /** `UserResponse`, without the creation time: no clerk user id. */
  datatype UserView = UserView(
    id: int,
    email: string,
    firstName: Option<string>,
    lastName: Option<string>,
    imageUrl: Option<string>)

  /** `UserWithRolesResponse.MembershipInfo`, without the role's row id. */
  datatype MembershipInfo = MembershipInfo(
    membershipId: int,
    organizationId: Option<int>,
    organizationName: Option<string>,
    clerkOrgId: Option<string>,
    roleName: Option<string>)

  /** `UserWithRolesResponse`, without the creation time. */
  datatype UserWithRoles = UserWithRoles(
    user: UserView,
    memberships: seq<MembershipInfo>,
    totalOrganizations: nat,
    isAdmin: bool)

  /** `mapToResponse` */
  function MapToResponse(u: User): (r: UserView)
    ensures r.id == u.id && r.email == u.email
    ensures r.firstName == u.firstName && r.lastName == u.lastName && r.imageUrl == u.imageUrl
  {
    UserView(u.id, u.email, u.firstName, u.lastName, u.imageUrl)
  }

  /** The response does not depend on the clerk user id. */
  lemma ResponseHidesClerkId(u: User, other: string)
    ensures MapToResponse(u.(clerkUserId := other)) == MapToResponse(u)
  {
  }

  /** One membership as listed; the inner join guarantees its organization. */
  function Info(s: State, m: Membership): (r: MembershipInfo)
    requires OrganizationIndexById(s.organizations, m.organizationId).Some?
    ensures r.membershipId == m.id && r.organizationId == Some(m.organizationId) && r.roleName == Some(m.roleName)
  {
    var org := FindOrganizationById(s.organizations, m.organizationId).value;
    MembershipInfo(m.id, Some(org.id), Some(org.name), Some(org.clerkOrgId), Some(m.roleName))
  }

  /** `anyMatch` of a role named exactly "ADMIN". */
  predicate AnyAdmin(ms: seq<Membership>)
  {
    exists m | m in ms :: m.roleName == "ADMIN"
  }

  /** The inner map of `mapToUserWithRolesResponse`: memberships that throw
    * while being mapped are dropped, the others listed in order. */
  function Infos(s: State, ms: seq<Membership>, fails: Membership -> bool): (r: seq<MembershipInfo>)
    requires forall m :: m in ms ==> OrganizationIndexById(s.organizations, m.organizationId).Some?
    ensures |r| <= |ms|
    ensures forall info :: info in r <==> exists m :: m in ms && !fails(m) && info == Info(s, m)
  {
    if ms == [] then []
    else
      var rest := Infos(s, ms[1..], fails);
      assert forall m :: m in ms <==> m == ms[0] || m in ms[1..];
      (if fails(ms[0]) then [] else [Info(s, ms[0])]) + rest
  }

  /** `mapToUserWithRolesResponse`. `fails` says which memberships throw while
    * being mapped (those are dropped) and `broken` whether the whole mapping
    * throws (then the user is listed bare). */
  function MapToUserWithRoles(s: State, u: User, fails: Membership -> bool, broken: bool): (r: UserWithRoles)
    ensures r.user == MapToResponse(u)
    ensures broken ==> r.memberships == [] && r.totalOrganizations == 0 && !r.isAdmin
    ensures !broken ==>
              var ms := FindByUserIdWithRelations(s, u.id);
              && r.totalOrganizations == |ms|
              && |r.memberships| <= r.totalOrganizations
              && (r.isAdmin <==> exists m :: m in ms && m.roleName == "ADMIN")
              && r.memberships == Infos(s, ms, fails)
  {
    if broken then UserWithRoles(MapToResponse(u), [], 0, false)
    else
      var ms := FindByUserIdWithRelations(s, u.id);
      UserWithRoles(MapToResponse(u), Infos(s, ms, fails), |ms|, AnyAdmin(ms))
  }

  /** The summary's `isAdmin` is the admin-anywhere check, and
    * `totalOrganizations` counts every membership. */
  lemma SummaryAgreesWithAuthorization(s: State, u: User, fails: Membership -> bool,
                                       first: Authorization.QueryResult, retry: Authorization.QueryResult)
    requires Valid(s)
    requires u in s.users
    requires first.Answered? || (Authorization.PreparedStatementConflict(first) && retry.Answered?)
    ensures var r := MapToUserWithRoles(s, u, fails, false);
            && (r.isAdmin <==> Authorization.IsAdminInAnyOrganization(s, u.clerkUserId, first, retry) == Ok(true))
            && r.totalOrganizations == |FindByUserId(s.memberships, u.id)|
  {
    forall m | m in s.memberships
      ensures OrganizationIndexById(s.organizations, m.organizationId).Some? && m.roleName in s.roles
    {
      var k :| 0 <= k < |s.memberships| && s.memberships[k] == m;
    }
    WithRelationsIsFindByUserId(s, u.id);
    var found := Authorization.GetUserByClerkId(s, u.clerkUserId).value;
    assert found == u by {
      var i :| 0 <= i < |s.users| && s.users[i] == u;
      var j := UserIndex(s.users, u.clerkUserId).value;
      assert UserClerkKey(s.users[i]) == UserClerkKey(s.users[j]);
    }
    Authorization.AdminFoundIffSomewhere(s, u.id);
    Authorization.AdminAnywhereIsAdminOfSome(s, u.clerkUserId, first, retry);
  }

  // ------------------------------------------------------------------
  // The listings
  // ------------------------------------------------------------------

  const AdminRequired := "Forbidden: ADMIN role required to fetch all users"

  /** The admin gate of both listings: an exception from the check propagates,
    * and anything but "admin somewhere" is refused. */
  function AdminGate(s: State, clerkUserId: string, first: Authorization.QueryResult,
                     retry: Authorization.QueryResult): (r: Option<Refusal>)
    ensures r.None? <==> Authorization.IsAdminInAnyOrganization(s, clerkUserId, first, retry) == Ok(true)
  {
    match Authorization.IsAdminInAnyOrganization(s, clerkUserId, first, retry)
    case Thrown(m) => Some(Failure(m))
    case Ok(admin) => if admin then None else Some(AccessDenied(AdminRequired))
  }

  /** `getAllUsers`. `findAll` is the paged, sorted read of the users table. */
  function GetAllUsers(s: State, clerkUserId: string, pageable: Pageable,
                       first: Authorization.QueryResult, retry: Authorization.QueryResult,
                       findAll: Pageable -> seq<User>): (r: Answer<seq<UserView>>)
    ensures r.Granted? <==> Authorization.IsAdminInAnyOrganization(s, clerkUserId, first, retry) == Ok(true)
    ensures r.Granted? ==>
              var users := findAll(WithDefaultSort(pageable));
              |r.value| == |users| && forall i :: 0 <= i < |users| ==> r.value[i] == MapToResponse(users[i])
  {
    match AdminGate(s, clerkUserId, first, retry)
    case Some(refusal) => Refused(refusal)
    case None =>
      var users := findAll(WithDefaultSort(pageable));
      Granted(seq(|users|, i requires 0 <= i < |users| => MapToResponse(users[i])))
  }

  /** `getAllUsersWithRoles` */
  function GetAllUsersWithRoles(s: State, clerkUserId: string, pageable: Pageable,
                                first: Authorization.QueryResult, retry: Authorization.QueryResult,
                                findAll: Pageable -> seq<User>, fails: Membership -> bool, broken: User -> bool)
    : (r: Answer<seq<UserWithRoles>>)
    ensures r.Granted? <==> Authorization.IsAdminInAnyOrganization(s, clerkUserId, first, retry) == Ok(true)
    ensures r.Granted? ==>
              var users := findAll(WithDefaultSort(pageable));
              |r.value| == |users| && forall i :: 0 <= i < |users| ==> r.value[i].user == MapToResponse(users[i])
    ensures r.Granted? ==>
              var users := findAll(WithDefaultSort(pageable));
              forall i :: 0 <= i < |users| ==> r.value[i] == MapToUserWithRoles(s, users[i], fails, broken(users[i]))
  {
    match AdminGate(s, clerkUserId, first, retry)
    case Some(refusal) => Refused(refusal)
    case None =>
      var users := findAll(WithDefaultSort(pageable));
      Granted(seq(|users|, i requires 0 <= i < |users| => MapToUserWithRoles(s, users[i], fails, broken(users[i]))))
  }

  /** Callers who are not admin anywhere, including unknown callers, are
    * refused with AccessDenied by both listings. */
  lemma NonAdminsAreDenied(s: State, clerkUserId: string, pageable: Pageable,
                           first: Authorization.QueryResult, retry: Authorization.QueryResult,
                           findAll: Pageable -> seq<User>, fails: Membership -> bool, broken: User -> bool)
    requires Authorization.IsAdminInAnyOrganization(s, clerkUserId, first, retry) == Ok(false)
    ensures GetAllUsers(s, clerkUserId, pageable, first, retry, findAll) == Refused(AccessDenied(AdminRequired))
    ensures GetAllUsersWithRoles(s, clerkUserId, pageable, first, retry, findAll, fails, broken)
            == Refused(AccessDenied(AdminRequired))
  {
  }
}
