/** The older membership repository: the same JPQL, written here as direct
  * scans of the table so that its agreement with the current repository is a
  * proved fact rather than a shared definition. */
module LegacyMembershipRepository {
  import opened Common
  import opened Store
  import Current = MembershipRepository

  /** `findByClerkMembershipId` */
  function FindByClerkMembershipId(ms: seq<Membership>, clerkMembershipId: string): (r: Option<Membership>)
    ensures r.Some? ==> r.value in ms && r.value.clerkMembershipId == clerkMembershipId
    ensures r.None? ==> forall m :: m in ms ==> m.clerkMembershipId != clerkMembershipId
    decreases |ms|
  {
    if ms == [] then None
    else if ms[0].clerkMembershipId == clerkMembershipId then Some(ms[0])
    else FindByClerkMembershipId(ms[1..], clerkMembershipId)
  }

  /** `findByUserIdAndOrganizationId` */
  function FindByUserIdAndOrganizationId(ms: seq<Membership>, userId: int, orgId: int): (r: Option<Membership>)
    ensures r.Some? ==> r.value in ms && r.value.userId == userId && r.value.organizationId == orgId
    ensures r.None? ==> forall m :: m in ms ==> !(m.userId == userId && m.organizationId == orgId)
    decreases |ms|
  {
    if ms == [] then None
    else if ms[0].userId == userId && ms[0].organizationId == orgId then Some(ms[0])
    else FindByUserIdAndOrganizationId(ms[1..], userId, orgId)
  }

  /** `findByUserId` */
  function FindByUserId(ms: seq<Membership>, userId: int): (r: seq<Membership>)
    ensures forall m :: m in r ==> m in ms && m.userId == userId
    decreases |ms|
  {
    if ms == [] then []
    else if ms[0].userId == userId then [ms[0]] + FindByUserId(ms[1..], userId)
    else FindByUserId(ms[1..], userId)
  }

  /** `findByOrganizationId` */
  function FindByOrganizationId(ms: seq<Membership>, orgId: int): (r: seq<Membership>)
    ensures forall m :: m in r ==> m in ms && m.organizationId == orgId
    decreases |ms|
  {
    if ms == [] then []
    else if ms[0].organizationId == orgId then [ms[0]] + FindByOrganizationId(ms[1..], orgId)
    else FindByOrganizationId(ms[1..], orgId)
  }

  /** `findByUserIdAndOrganizationIdAndRoleName` */
  function FindByUserIdAndOrganizationIdAndRoleName(ms: seq<Membership>, userId: int, orgId: int, roleName: string)
    : (r: Option<Membership>)
    ensures r.Some? ==> r.value in ms && r.value.userId == userId && r.value.organizationId == orgId
                        && r.value.roleName == roleName
    ensures r.None? ==>
      forall m :: m in ms ==> !(m.userId == userId && m.organizationId == orgId && m.roleName == roleName)
    decreases |ms|
  {
    if ms == [] then None
    else if ms[0].userId == userId && ms[0].organizationId == orgId && ms[0].roleName == roleName then Some(ms[0])
    else FindByUserIdAndOrganizationIdAndRoleName(ms[1..], userId, orgId, roleName)
  }

  // ------------------------------------------------------------------
  // Agreement with the current repository
  // ------------------------------------------------------------------

  /** Under UNIQUE(clerk_membership_id) at most one row answers the query. */
  lemma ClerkMembershipIdSelectsOneRow(ms: seq<Membership>, clerkMembershipId: string, i: nat, j: nat)
    requires UniqueBy(ms, MembershipClerkKey)
    requires i < |ms| && j < |ms|
    requires ms[i].clerkMembershipId == clerkMembershipId && ms[j].clerkMembershipId == clerkMembershipId
    ensures i == j
  {
    assert MembershipClerkKey(ms[i]) == MembershipClerkKey(ms[j]);
  }

  lemma {:induction false} SameClerkLookup(ms: seq<Membership>, clerkMembershipId: string)
    ensures FindByClerkMembershipId(ms, clerkMembershipId) == Current.FindByClerkMembershipId(ms, clerkMembershipId)
    decreases |ms|
  {
    if ms != [] && ms[0].clerkMembershipId != clerkMembershipId {
      SameClerkLookup(ms[1..], clerkMembershipId);
    }
  }

  lemma {:induction false} SamePairLookup(ms: seq<Membership>, userId: int, orgId: int)
    ensures FindByUserIdAndOrganizationId(ms, userId, orgId) == Current.FindByUserIdAndOrganizationId(ms, userId, orgId)
    decreases |ms|
  {
    if ms != [] && !(ms[0].userId == userId && ms[0].organizationId == orgId) {
      SamePairLookup(ms[1..], userId, orgId);
    }
  }

  lemma {:induction false} SameUserFilter(ms: seq<Membership>, userId: int)
    ensures FindByUserId(ms, userId) == Current.FindByUserId(ms, userId)
    decreases |ms|
  {
    if ms != [] {
      SameUserFilter(ms[1..], userId);
    }
  }

  lemma {:induction false} SameOrganizationFilter(ms: seq<Membership>, orgId: int)
    ensures FindByOrganizationId(ms, orgId) == Current.FindByOrganizationId(ms, orgId)
    decreases |ms|
  {
    if ms != [] {
      SameOrganizationFilter(ms[1..], orgId);
    }
  }

  lemma {:induction false} SameRoleLookup(ms: seq<Membership>, userId: int, orgId: int, roleName: string)
    ensures FindByUserIdAndOrganizationIdAndRoleName(ms, userId, orgId, roleName).Some? ==
            Current.FindByUserIdAndOrganizationIdAndRoleName(ms, userId, orgId, roleName).Some?
    decreases |ms|
  {
    if ms != [] {
      SameRoleLookup(ms[1..], userId, orgId, roleName);
    }
  }
}
