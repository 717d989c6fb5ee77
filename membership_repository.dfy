/** The JPQL queries of the membership repository, as filters and counts over
  * the rows of the memberships table. */
module MembershipRepository {
  import opened Common
  import opened Store

  /** `findByClerkMembershipId`, as a row index. */
  function MembershipIndex(ms: seq<Membership>, clerkMembershipId: string): (r: Option<nat>)
    ensures r.Some? ==> r.value < |ms| && ms[r.value].clerkMembershipId == clerkMembershipId
    ensures r.None? <==> forall j :: 0 <= j < |ms| ==> ms[j].clerkMembershipId != clerkMembershipId
  {
    FirstIndex(ms, (m: Membership) => m.clerkMembershipId == clerkMembershipId)
  }

  /** `findByClerkMembershipId` */
  function FindByClerkMembershipId(ms: seq<Membership>, clerkMembershipId: string): (r: Option<Membership>)
    ensures r.Some? ==> r.value in ms && r.value.clerkMembershipId == clerkMembershipId
    ensures r.None? <==> forall m :: m in ms ==> m.clerkMembershipId != clerkMembershipId
  {
    match MembershipIndex(ms, clerkMembershipId)
    case None => None
    case Some(i) => Some(ms[i])
  }

  /** `findByUserIdAndOrganizationId`, as a row index. */
  function PairIndex(ms: seq<Membership>, userId: int, orgId: int): (r: Option<nat>)
    ensures r.Some? ==> r.value < |ms| && ms[r.value].userId == userId && ms[r.value].organizationId == orgId
    ensures r.None? <==> forall j :: 0 <= j < |ms| ==> !(ms[j].userId == userId && ms[j].organizationId == orgId)
  {
    FirstIndex(ms, (m: Membership) => m.userId == userId && m.organizationId == orgId)
  }

  /** `findByUserIdAndOrganizationId`: user id and organization id both match. */
  function FindByUserIdAndOrganizationId(ms: seq<Membership>, userId: int, orgId: int): (r: Option<Membership>)
    ensures r.Some? ==> r.value in ms && r.value.userId == userId && r.value.organizationId == orgId
    ensures r.None? <==> forall m :: m in ms ==> !(m.userId == userId && m.organizationId == orgId)
  {
    match PairIndex(ms, userId, orgId)
    case None => None
    case Some(i) => Some(ms[i])
  }

  /** `findByUserId` */
  function FindByUserId(ms: seq<Membership>, userId: int): (r: seq<Membership>)
    ensures forall m :: m in r <==> m in ms && m.userId == userId
  {
    Filter(ms, (m: Membership) => m.userId == userId)
  }

  /** `findByUserIdWithRelations`: the inner joins with the organization and
    * the role keep only rows whose organization and role exist. */
  function FindByUserIdWithRelations(s: State, userId: int): (r: seq<Membership>)
    ensures forall m :: m in r <==>
      m in s.memberships && m.userId == userId &&
      OrganizationIndexById(s.organizations, m.organizationId).Some? && m.roleName in s.roles
  {
    Filter(s.memberships, (m: Membership) =>
      m.userId == userId && OrganizationIndexById(s.organizations, m.organizationId).Some? && m.roleName in s.roles)
  }

  /** `findByOrganizationId` */
  function FindByOrganizationId(ms: seq<Membership>, orgId: int): (r: seq<Membership>)
    ensures forall m :: m in r <==> m in ms && m.organizationId == orgId
  {
    Filter(ms, (m: Membership) => m.organizationId == orgId)
  }

  /** `findByUserIdAndOrganizationIdAndRoleName`: both ids match and the role
    * name is exactly equal. */
  function FindByUserIdAndOrganizationIdAndRoleName(ms: seq<Membership>, userId: int, orgId: int, roleName: string)
    : (r: Option<Membership>)
    ensures r.Some? ==> r.value in ms && r.value.userId == userId && r.value.organizationId == orgId
                        && r.value.roleName == roleName
    ensures r.None? <==>
      forall m :: m in ms ==> !(m.userId == userId && m.organizationId == orgId && m.roleName == roleName)
  {
    match FirstIndex(ms, (m: Membership) => m.userId == userId && m.organizationId == orgId && m.roleName == roleName)
    case None => None
    case Some(i) => Some(ms[i])
  }

  /** `findAdminMembershipsByUserId`: role name exactly 'ADMIN'. */
  function FindAdminMembershipsByUserId(ms: seq<Membership>, userId: int): (r: seq<Membership>)
    ensures forall m :: m in r <==> m in ms && m.userId == userId && m.roleName == "ADMIN"
  {
    Filter(ms, (m: Membership) => m.userId == userId && m.roleName == "ADMIN")
  }

  /** `countAdminMembershipsByUserId`: a COUNT over the same condition. */
  function CountAdminMembershipsByUserId(ms: seq<Membership>, userId: int): (r: nat)
    ensures r <= |ms|
    ensures r == 0 <==> forall k :: 0 <= k < |ms| ==> !(ms[k].userId == userId && ms[k].roleName == "ADMIN")
  {
    if ms == [] then 0
    else (if ms[0].userId == userId && ms[0].roleName == "ADMIN" then 1 else 0)
         + CountAdminMembershipsByUserId(ms[1..], userId)
  }

  /** `countByOrganizationId`: a COUNT over the organization's rows. */
  function CountByOrganizationId(ms: seq<Membership>, orgId: int): (r: nat)
    ensures r <= |ms|
    ensures r == 0 <==> forall k :: 0 <= k < |ms| ==> ms[k].organizationId != orgId
  {
    if ms == [] then 0
    else (if ms[0].organizationId == orgId then 1 else 0) + CountByOrganizationId(ms[1..], orgId)
  }

  // ------------------------------------------------------------------
  // Properties of the queries
  // ------------------------------------------------------------------

  lemma {:induction false} CountAdminIsSizeOfFind(ms: seq<Membership>, userId: int)
    ensures CountAdminMembershipsByUserId(ms, userId) == |FindAdminMembershipsByUserId(ms, userId)|
    decreases |ms|
  {
    if ms != [] {
      CountAdminIsSizeOfFind(ms[1..], userId);
    }
  }

  lemma {:induction false} CountByOrganizationIsSizeOfFind(ms: seq<Membership>, orgId: int)
    ensures CountByOrganizationId(ms, orgId) == |FindByOrganizationId(ms, orgId)|
    decreases |ms|
  {
    if ms != [] {
      CountByOrganizationIsSizeOfFind(ms[1..], orgId);
    }
  }

  /** Under UNIQUE(user_id, organization_id) the pair lookup finds the one row. */
  lemma PairLookupIsTheOnlyRow(ms: seq<Membership>, userId: int, orgId: int, j: nat)
    requires UniqueBy(ms, MembershipPairKey)
    requires j < |ms| && ms[j].userId == userId && ms[j].organizationId == orgId
    ensures PairIndex(ms, userId, orgId) == Some(j)
  {
    var r := PairIndex(ms, userId, orgId);
    assert MembershipPairKey(ms[r.value]) == MembershipPairKey(ms[j]);
  }

  /** Under UNIQUE(clerk_membership_id) the clerk-id lookup finds the one row. */
  lemma ClerkLookupIsTheOnlyRow(ms: seq<Membership>, clerkMembershipId: string, j: nat)
    requires UniqueBy(ms, MembershipClerkKey)
    requires j < |ms| && ms[j].clerkMembershipId == clerkMembershipId
    ensures MembershipIndex(ms, clerkMembershipId) == Some(j)
  {
    var r := MembershipIndex(ms, clerkMembershipId);
    assert MembershipClerkKey(ms[r.value]) == MembershipClerkKey(ms[j]);
  }

  /** With one membership per pair, the role query succeeds exactly when the
    * pair's membership carries that role name. */
  lemma RoleQueryRefinesPairQuery(ms: seq<Membership>, userId: int, orgId: int, roleName: string)
    requires UniqueBy(ms, MembershipPairKey)
    ensures FindByUserIdAndOrganizationIdAndRoleName(ms, userId, orgId, roleName).Some? <==>
            (FindByUserIdAndOrganizationId(ms, userId, orgId).Some? &&
             FindByUserIdAndOrganizationId(ms, userId, orgId).value.roleName == roleName)
  {
    var p := PairIndex(ms, userId, orgId);
    var q := FindByUserIdAndOrganizationIdAndRoleName(ms, userId, orgId, roleName);
    if q.Some? {
      var j :| 0 <= j < |ms| && ms[j] == q.value;
      PairLookupIsTheOnlyRow(ms, userId, orgId, j);
    }
    if p.Some? && ms[p.value].roleName == roleName {
      assert ms[p.value] in ms;
    }
  }

  /** When every membership's organization and role exist (the foreign keys),
    * the eager-fetching query selects exactly `findByUserId`'s rows. */
  lemma {:induction false} WithRelationsIsFindByUserId(s: State, userId: int)
    requires forall m :: m in s.memberships ==>
      OrganizationIndexById(s.organizations, m.organizationId).Some? && m.roleName in s.roles
    ensures FindByUserIdWithRelations(s, userId) == FindByUserId(s.memberships, userId)
  {
    FilterSameOn(s.memberships,
      (m: Membership) =>
        m.userId == userId && OrganizationIndexById(s.organizations, m.organizationId).Some? && m.roleName in s.roles,
      (m: Membership) => m.userId == userId);
  }

  lemma {:induction false} FilterSameOn<T(!new)>(xs: seq<T>, p: T -> bool, q: T -> bool)
    requires forall x :: x in xs ==> p(x) == q(x)
    ensures Filter(xs, p) == Filter(xs, q)
    decreases |xs|
  {
    if xs != [] {
      assert xs[0] in xs;
      assert forall x :: x in xs[1..] ==> x in xs;
      FilterSameOn(xs[1..], p, q);
    }
  }
}
