/** The read side of organizations: the access gate in front of every read,
  * the caller's role, member counts, and the manual pagination of the member
  * list with Java's 32-bit `int` arithmetic. */
module OrganizationService {
  import opened Common
  import opened Store
  import opened MembershipRepository
  import Authorization

  // ------------------------------------------------------------------
  // Java int arithmetic
  // ------------------------------------------------------------------

  const IntMin := -0x8000_0000
  const IntMax := 0x7FFF_FFFF

  /** A Java `int`. */
  type Int32 = x: int | IntMin <= x <= IntMax

  /** Two's-complement wrap-around of a mathematical result to an `int`. */
  function Wrap(x: int): (r: Int32)
    ensures IntMin <= x <= IntMax ==> r == x
    ensures IntMax < x <= IntMax + 0x1_0000_0000 ==> r == x - 0x1_0000_0000
    ensures (r - x) % 0x1_0000_0000 == 0
  {
    (x - IntMin) % 0x1_0000_0000 + IntMin
  }

  /** The `(int)` cast of a double, which saturates. */
  function Saturate(x: int): (r: Int32)
    ensures IntMin <= x <= IntMax ==> r == x
    ensures x <= 0 ==> r <= 0
  {
    if x < IntMin then IntMin else if x > IntMax then IntMax else x
  }

  function Min(a: int, b: int): int
  {
    if a <= b then a else b
  }

  // ------------------------------------------------------------------
  // Pagination
  // ------------------------------------------------------------------

  /** The manual pagination of `getOrganizationMembers`: `start = page * size`
    * and `end = min(start + size, n)` in `int`, then `subList(start, end)`
    * when `start < n` and an empty list otherwise. `subList` throws for a
    * negative start or a start past the end. */
  function Page<T>(all: seq<T>, page: Int32, size: Int32): (r: Attempt<seq<T>>)
    ensures r.Ok? ==> |r.value| <= (if size > 0 then size else 0)
    ensures r.Ok? && r.value != [] ==>
              var start := Wrap(page * size);
              0 <= start && start + |r.value| <= |all| && r.value == all[start..start + |r.value|]
    ensures r.Ok? ==> forall x :: x in r.value ==> x in all
  {
    var start := Wrap(page * size);
    var end := Min(Wrap(start + size), |all|);
    if start < |all| then
      if start < 0 then Thrown("fromIndex = " + IntToString(start))
      else if start > end then Thrown("fromIndex(" + IntToString(start) + ") > toIndex(" + IntToString(end) + ")")
      else Ok(all[start..end])
    else Ok([])
  }

  /** The rows from `from` on, at most `size` of them. */
  function Window<T>(all: seq<T>, from: int, size: int): (r: seq<T>)
    requires 0 <= from && 0 <= size
    ensures forall x :: x in r ==> x in all
  {
    if from < |all| then all[from .. Min(from + size, |all|)] else []
  }

  /** Without overflow, page `page` is the slice [page*size, min(page*size+size, n)),
    * and empty when it starts past the end. */
  lemma PageIsSlice<T>(all: seq<T>, page: Int32, size: Int32)
    requires 0 <= page && 0 < size && page * size + size <= IntMax
    ensures 0 <= page * size
    ensures Page(all, page, size) == Ok(Window(all, page * size, size))
  {
    assert 0 <= page * size by {
      assert page >= 0 && size > 0;
    }
  }

  /** A negative page with a positive size starts before the list and makes
    * `subList` throw, unless the list is empty. */
  lemma NegativePageThrows<T>(all: seq<T>, page: Int32, size: Int32)
    requires page < 0 && 0 < size && IntMin <= page * size && all != []
    ensures Page(all, page, size).Thrown?
  {
    assert page * size < 0 by {
      assert page <= -1 && size >= 1;
    }
  }

  /** `page * size` is computed in 32 bits: page 65536 of size 65536 wraps to
    * start 0 and returns the first page again. */
  lemma OverflowingPageWraps<T>(all: seq<T>)
    requires all != []
    ensures Page(all, 65536, 65536) == Ok(all[..Min(65536, |all|)])
  {
    assert Wrap(65536 * 65536) == 0;
  }

  /** `(int) Math.ceil((double) totalCount / size)`: integer ceiling division
    * for a positive size; a zero size divides into infinity (saturated) or,
    * for no members, NaN (0). */
  function TotalPages(total: nat, size: Int32): (r: Int32)
    ensures size > 0 ==> r >= 0
    ensures size == 0 ==> (r == 0 <==> total == 0)
    ensures size == 0 && total > 0 ==> r == IntMax
    ensures size < 0 ==> r <= 0
  {
    if size > 0 then Saturate((total + size - 1) / size)
    else if size == 0 then (if total == 0 then 0 else IntMax)
    else
      var q: nat := total / -(size as int);
      Saturate(-(q as int))
  }

  lemma TotalPagesIsCeiling(total: nat, size: Int32)
    requires 0 < size && total <= IntMax
    ensures var r := TotalPages(total, size);
            r * size >= total && (total > 0 ==> (r - 1) * size < total) && (total == 0 ==> r == 0)
  {
    CeilingDivision(total, size);
  }

  /** Ceiling division by a positive divisor, in terms of Euclidean division. */
  lemma CeilingDivision(total: nat, size: int)
    requires 0 < size
    ensures var q := (total + size - 1) / size;
            0 <= q <= total && q * size >= total && (total > 0 ==> (q - 1) * size < total) && (total == 0 ==> q == 0)
  {
    var q := (total + size - 1) / size;
    DivisionBounds(total + size - 1, size);
    ProductOfPredecessor(q, size);
    if q > total {
      ProductAtLeast(q - 1, size);
    }
  }

  lemma DivisionBounds(n: int, d: int)
    requires 0 <= n && 0 < d
    ensures 0 <= n / d && (n / d) * d <= n < (n / d) * d + d
  {
  }

  lemma ProductOfPredecessor(q: int, d: int)
    ensures (q - 1) * d == q * d - d
  {
  }

  lemma ProductAtLeast(a: int, d: int)
    requires 0 <= a && 1 <= d
    ensures a * d >= a
  {
  }

  // ------------------------------------------------------------------
  // Responses
  // ------------------------------------------------------------------

  /** `OrganizationResponse`, without the timestamps. */
  datatype OrganizationView = OrganizationView(
    id: int,
    clerkOrgId: string,
    name: string,
    slug: Option<string>,
    imageUrl: Option<string>,
    memberCount: nat,
    userRole: Option<string>)

  /** `OrganizationMembersResponse.MemberInfo`, without the role's row id. */
  datatype MemberInfo = MemberInfo(
    membershipId: int,
    clerkMembershipId: string,
    roleName: Option<string>,
    userId: int,
    email: string,
    firstName: Option<string>,
    lastName: Option<string>,
    imageUrl: Option<string>)

  datatype OrganizationMembers = OrganizationMembers(
    members: seq<MemberInfo>,
    totalMembers: nat,
    page: Int32,
    size: Int32,
    totalPages: Int32)

  const Forbidden := "Forbidden: User does not have access to this organization"

  function View(s: State, org: Organization, userRole: Option<string>): (r: OrganizationView)
    ensures r.id == org.id && r.clerkOrgId == org.clerkOrgId && r.name == org.name
    ensures r.memberCount == |FindByOrganizationId(s.memberships, org.id)|
  {
    CountByOrganizationIsSizeOfFind(s.memberships, org.id);
    OrganizationView(org.id, org.clerkOrgId, org.name, org.slug, org.imageUrl,
                     CountByOrganizationId(s.memberships, org.id), userRole)
  }

  /** The caller's role in the organization: the role name of the caller's
    * membership, or null. */
  function UserRole(s: State, clerkUserId: string, organizationId: int): (r: Option<string>)
    ensures r.Some? <==> Authorization.HasAccessToOrganization(s, clerkUserId, organizationId)
    ensures r.Some? ==> exists m :: Authorization.MemberOf(s, Authorization.GetUserByClerkId(s, clerkUserId).value, organizationId, m)
                                   && m.roleName == r.value
  {
    match Authorization.GetMembership(s, clerkUserId, organizationId)
    case None => None
    case Some(m) => Some(m.roleName)
  }

  /** `getOrganizationById`: the access check comes first, then the lookup. */
  function GetOrganizationById(s: State, organizationId: int, clerkUserId: string): (r: Answer<OrganizationView>)
    ensures !Authorization.HasAccessToOrganization(s, clerkUserId, organizationId) ==> r == Refused(AccessDenied(Forbidden))
    ensures Authorization.HasAccessToOrganization(s, clerkUserId, organizationId) ==>
              (r.Granted? <==> OrganizationIndexById(s.organizations, organizationId).Some?)
    ensures r.Granted? ==> r.value.id == organizationId && r.value.userRole.Some?
    ensures r.Granted? ==> r.value.userRole.value == Authorization.GetMembership(s, clerkUserId, organizationId).value.roleName
  {
    if !Authorization.HasAccessToOrganization(s, clerkUserId, organizationId) then Refused(AccessDenied(Forbidden))
    else match FindOrganizationById(s.organizations, organizationId)
      case None => Refused(Failure("Organization not found: " + IntToString(organizationId)))
      case Some(org) => Granted(View(s, org, UserRole(s, clerkUserId, organizationId)))
  }

  /** `getOrganizationByClerkId`: the lookup comes first, then the access check. */
  function GetOrganizationByClerkId(s: State, clerkOrgId: string, clerkUserId: string): (r: Answer<OrganizationView>)
    ensures FindOrganization(s.organizations, clerkOrgId).None? ==>
              r == Refused(Failure("Organization not found: " + clerkOrgId))
    ensures FindOrganization(s.organizations, clerkOrgId).Some? ==>
              var org := FindOrganization(s.organizations, clerkOrgId).value;
              (r.Granted? <==> Authorization.HasAccessToOrganization(s, clerkUserId, org.id))
              && (r.Granted? ==> r.value.clerkOrgId == clerkOrgId && r.value.id == org.id)
  {
    match FindOrganization(s.organizations, clerkOrgId)
    case None => Refused(Failure("Organization not found: " + clerkOrgId))
    case Some(org) =>
      if !Authorization.HasAccessToOrganization(s, clerkUserId, org.id) then Refused(AccessDenied(Forbidden))
      else Granted(View(s, org, UserRole(s, clerkUserId, org.id)))
  }

  /** Where the clerk id names an organization, reading it by clerk id is
    * reading it by its row id. */
  lemma ByClerkIdIsById(s: State, clerkOrgId: string, clerkUserId: string)
    requires Valid(s)
    requires FindOrganization(s.organizations, clerkOrgId).Some?
    ensures GetOrganizationByClerkId(s, clerkOrgId, clerkUserId) ==
            GetOrganizationById(s, FindOrganization(s.organizations, clerkOrgId).value.id, clerkUserId)
  {
    var i := OrganizationIndex(s.organizations, clerkOrgId).value;
    var j := OrganizationIndexById(s.organizations, s.organizations[i].id).value;
    assert OrganizationIdKey(s.organizations[i]) == OrganizationIdKey(s.organizations[j]);
  }

  /** The rows `getOrganizationMembers` lists: the organization's memberships
    * whose user and role rows exist (an inner join with both). */
  function MembersWithRelations(s: State, organizationId: int): (r: seq<Membership>)
    ensures forall m :: m in r <==>
      m in s.memberships && m.organizationId == organizationId
      && UserIndexById(s.users, m.userId).Some? && m.roleName in s.roles
  {
    Filter(s.memberships, (m: Membership) =>
      m.organizationId == organizationId && UserIndexById(s.users, m.userId).Some? && m.roleName in s.roles)
  }

  function Member(s: State, m: Membership): (r: MemberInfo)
    requires UserIndexById(s.users, m.userId).Some?
    ensures r.membershipId == m.id && r.clerkMembershipId == m.clerkMembershipId && r.roleName == Some(m.roleName)
    ensures r.userId == m.userId
  {
    var user := FindUserById(s.users, m.userId).value;
    MemberInfo(m.id, m.clerkMembershipId, Some(m.roleName), user.id, user.email, user.firstName, user.lastName, user.imageUrl)
  }

  function Members(s: State, ms: seq<Membership>): (r: seq<MemberInfo>)
    requires forall m :: m in ms ==> UserIndexById(s.users, m.userId).Some?
    ensures |r| == |ms| && forall i :: 0 <= i < |ms| ==> r[i] == Member(s, ms[i])
  {
    seq(|ms|, i requires 0 <= i < |ms| => Member(s, ms[i]))
  }

  /** `getOrganizationMembers` */
  function GetOrganizationMembers(s: State, organizationId: int, clerkUserId: string, page: Int32, size: Int32)
    : (r: Answer<OrganizationMembers>)
    ensures !Authorization.HasAccessToOrganization(s, clerkUserId, organizationId) ==> r == Refused(AccessDenied(Forbidden))
    ensures r.Granted? ==> OrganizationIndexById(s.organizations, organizationId).Some?
    ensures r.Granted? ==> |r.value.members| <= (if size > 0 then size else 0)
    ensures r.Granted? ==> r.value.page == page && r.value.size == size
    ensures r.Granted? ==> r.value.totalMembers == |FindByOrganizationId(s.memberships, organizationId)|
    ensures r.Granted? ==> r.value.totalPages == TotalPages(r.value.totalMembers, size)
  {
    if !Authorization.HasAccessToOrganization(s, clerkUserId, organizationId) then Refused(AccessDenied(Forbidden))
    else if OrganizationIndexById(s.organizations, organizationId).None? then
      Refused(Failure("Organization not found: " + IntToString(organizationId)))
    else
      var all := MembersWithRelations(s, organizationId);
      CountByOrganizationIsSizeOfFind(s.memberships, organizationId);
      var total := CountByOrganizationId(s.memberships, organizationId);
      match Page(all, page, size)
      case Thrown(m) => Refused(Failure(m))
      case Ok(rows) =>
        Granted(OrganizationMembers(Members(s, rows), total, page, size, TotalPages(total, size)))
  }

  /** Non-members are turned away before the organization is looked up, so a
    * missing organization and a foreign one look the same to them. */
  lemma NonMembersCannotProbe(s: State, a: int, b: int, clerkUserId: string, page: Int32, size: Int32)
    requires !Authorization.HasAccessToOrganization(s, clerkUserId, a)
    requires !Authorization.HasAccessToOrganization(s, clerkUserId, b)
    ensures GetOrganizationMembers(s, a, clerkUserId, page, size) == GetOrganizationMembers(s, b, clerkUserId, page, size)
    ensures GetOrganizationById(s, a, clerkUserId) == GetOrganizationById(s, b, clerkUserId)
  {
  }

  /** Without overflow, the members listed are those of the slice of the
    * joined rows, in order, and `totalPages` is the ceiling of the count. */
  lemma MembersPageIsSlice(s: State, organizationId: int, clerkUserId: string, page: Int32, size: Int32)
    requires Authorization.HasAccessToOrganization(s, clerkUserId, organizationId)
    requires OrganizationIndexById(s.organizations, organizationId).Some?
    requires 0 <= page && 0 < size && page * size + size <= IntMax
    ensures var r := GetOrganizationMembers(s, organizationId, clerkUserId, page, size);
            var all := MembersWithRelations(s, organizationId);
            0 <= page * size
            && r.Granted?
            && r.value.members == Members(s, Window(all, page * size, size))
            && (r.value.totalMembers <= IntMax ==>
                  r.value.totalPages * size >= r.value.totalMembers
                  && (r.value.totalMembers > 0 ==> (r.value.totalPages - 1) * size < r.value.totalMembers))
  {
    var all := MembersWithRelations(s, organizationId);
    PageIsSlice(all, page, size);
    MembersOfPage(s, organizationId, clerkUserId, page, size);
    var r := GetOrganizationMembers(s, organizationId, clerkUserId, page, size);
    if r.value.totalMembers <= IntMax {
      TotalPagesIsCeiling(r.value.totalMembers, size);
    }
  }

  lemma MembersOfPage(s: State, organizationId: int, clerkUserId: string, page: Int32, size: Int32)
    requires Authorization.HasAccessToOrganization(s, clerkUserId, organizationId)
    requires OrganizationIndexById(s.organizations, organizationId).Some?
    requires Page(MembersWithRelations(s, organizationId), page, size).Ok?
    ensures var r := GetOrganizationMembers(s, organizationId, clerkUserId, page, size);
            r.Granted? && r.value.members == Members(s, Page(MembersWithRelations(s, organizationId), page, size).value)
  {
  }

  // ------------------------------------------------------------------
  // getUserOrganizations
  // ------------------------------------------------------------------

  function Listing(s: State, m: Membership): (r: OrganizationView)
    requires OrganizationIndexById(s.organizations, m.organizationId).Some?
    ensures r.id == m.organizationId && r.userRole == Some(m.roleName)
  {
    View(s, FindOrganizationById(s.organizations, m.organizationId).value, Some(m.roleName))
  }

  /** `getUserOrganizations`: one entry per membership of the caller that
    * joins with its organization and role, carrying that membership's role. */
  function GetUserOrganizations(s: State, clerkUserId: string): (r: Answer<seq<OrganizationView>>)
    ensures Authorization.GetUserByClerkId(s, clerkUserId).None? ==>
              r == Refused(Failure("User not found: " + clerkUserId))
    ensures r.Granted? ==>
              var ms := FindByUserIdWithRelations(s, Authorization.GetUserByClerkId(s, clerkUserId).value.id);
              |r.value| == |ms| &&
              forall i :: 0 <= i < |ms| ==> r.value[i].id == ms[i].organizationId && r.value[i].userRole == Some(ms[i].roleName)
  {
    match FindUser(s.users, clerkUserId)
    case None => Refused(Failure("User not found: " + clerkUserId))
    case Some(user) =>
      var ms := FindByUserIdWithRelations(s, user.id);
      Granted(seq(|ms|, i requires 0 <= i < |ms| => Listing(s, ms[i])))
  }

  /** The caller gets one entry per membership (`findByUserId`), and each
    * entry's role is that membership's: the role foreign key drops no row. */
  lemma OneEntryPerMembership(s: State, clerkUserId: string)
    requires Valid(s)
    requires Authorization.GetUserByClerkId(s, clerkUserId).Some?
    ensures var r := GetUserOrganizations(s, clerkUserId);
            var ms := FindByUserId(s.memberships, Authorization.GetUserByClerkId(s, clerkUserId).value.id);
            r.Granted? && |r.value| == |ms| &&
            forall i :: 0 <= i < |ms| ==> r.value[i].id == ms[i].organizationId && r.value[i].userRole == Some(ms[i].roleName)
  {
    forall m | m in s.memberships
      ensures OrganizationIndexById(s.organizations, m.organizationId).Some? && m.roleName in s.roles
    {
      var k :| 0 <= k < |s.memberships| && s.memberships[k] == m;
    }
    WithRelationsIsFindByUserId(s, Authorization.GetUserByClerkId(s, clerkUserId).value.id);
  }
}
