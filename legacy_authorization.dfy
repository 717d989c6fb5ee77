/** The older authorization service: the same checks as the current one,
  * over the older membership repository and with no admin-anywhere check
  * and no role repair. */
module LegacyAuthorization {
  import opened Common
  import opened Store
  import opened LegacyMembershipRepository
  import Current = Authorization
  import CurrentRepository = MembershipRepository

  /** `getUserByClerkId` */
  function GetUserByClerkId(s: State, clerkUserId: string): (r: Option<User>)
    ensures r.Some? ==> r.value in s.users && r.value.clerkUserId == clerkUserId
    ensures r.None? <==> forall u :: u in s.users ==> u.clerkUserId != clerkUserId
  {
    FindUser(s.users, clerkUserId)
  }

  /** `hasAccessToOrganization` */
  function HasAccessToOrganization(s: State, clerkUserId: string, organizationId: int): (r: bool)
    ensures r <==> GetUserByClerkId(s, clerkUserId).Some? &&
                   exists m :: Current.MemberOf(s, GetUserByClerkId(s, clerkUserId).value, organizationId, m)
  {
    match FindUser(s.users, clerkUserId)
    case None => false
    case Some(user) =>
      var found := FindByUserIdAndOrganizationId(s.memberships, user.id, organizationId);
      assert found.Some? ==> Current.MemberOf(s, user, organizationId, found.value);
      found.Some?
  }

  /** `hasRole`: the requested role name is upper-cased before the query. */
  function HasRole(s: State, clerkUserId: string, organizationId: int, roleName: string): (r: bool)
    ensures r <==> GetUserByClerkId(s, clerkUserId).Some? &&
                   exists m :: Current.MemberOf(s, GetUserByClerkId(s, clerkUserId).value, organizationId, m)
                               && m.roleName == ToUpper(roleName)
  {
    match FindUser(s.users, clerkUserId)
    case None => false
    case Some(user) =>
      var found := FindByUserIdAndOrganizationIdAndRoleName(s.memberships, user.id, organizationId, ToUpper(roleName));
      assert found.Some? ==> Current.MemberOf(s, user, organizationId, found.value);
      found.Some?
  }

  /** `isAdmin` */
  function IsAdmin(s: State, clerkUserId: string, organizationId: int): (r: bool)
    ensures r <==> GetUserByClerkId(s, clerkUserId).Some? &&
                   exists m :: Current.MemberOf(s, GetUserByClerkId(s, clerkUserId).value, organizationId, m)
                               && m.roleName == "ADMIN"
  {
    HasRole(s, clerkUserId, organizationId, "ADMIN")
  }

  /** `getMembership` */
  function GetMembership(s: State, clerkUserId: string, organizationId: int): (r: Option<Membership>)
    ensures r.Some? <==> HasAccessToOrganization(s, clerkUserId, organizationId)
    ensures r.Some? ==> Current.MemberOf(s, GetUserByClerkId(s, clerkUserId).value, organizationId, r.value)
  {
    match FindUser(s.users, clerkUserId)
    case None => None
    case Some(user) => FindByUserIdAndOrganizationId(s.memberships, user.id, organizationId)
  }

  /** An unknown user is denied everything. */
  lemma UnknownUserIsDenied(s: State, clerkUserId: string, organizationId: int, roleName: string)
    requires forall u :: u in s.users ==> u.clerkUserId != clerkUserId
    ensures !HasAccessToOrganization(s, clerkUserId, organizationId)
    ensures !HasRole(s, clerkUserId, organizationId, roleName) && !IsAdmin(s, clerkUserId, organizationId)
    ensures GetMembership(s, clerkUserId, organizationId).None?
  {
  }

  /** On every state the older service answers exactly as the current one. */
  lemma AgreesWithCurrent(s: State, clerkUserId: string, organizationId: int, roleName: string)
    ensures GetUserByClerkId(s, clerkUserId) == Current.GetUserByClerkId(s, clerkUserId)
    ensures HasAccessToOrganization(s, clerkUserId, organizationId) ==
            Current.HasAccessToOrganization(s, clerkUserId, organizationId)
    ensures HasRole(s, clerkUserId, organizationId, roleName) == Current.HasRole(s, clerkUserId, organizationId, roleName)
    ensures IsAdmin(s, clerkUserId, organizationId) == Current.IsAdmin(s, clerkUserId, organizationId)
    ensures GetMembership(s, clerkUserId, organizationId) == Current.GetMembership(s, clerkUserId, organizationId)
  {
    match FindUser(s.users, clerkUserId)
    case None =>
    case Some(user) =>
      SamePairLookup(s.memberships, user.id, organizationId);
      SameRoleLookup(s.memberships, user.id, organizationId, ToUpper(roleName));
      SameRoleLookup(s.memberships, user.id, organizationId, "ADMIN");
  }
}
