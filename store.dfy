/** The relational state the services share: the users, organizations,
  * roles and memberships tables and the two append-only audit logs, with the
  * database's key and foreign-key constraints as a validity predicate. */
module Store {
  import opened Common
  import opened Json

  datatype User = User(
    id: int,
    clerkUserId: string,
    email: string,
    firstName: Option<string>,
    lastName: Option<string>,
    imageUrl: Option<string>)

  datatype Organization = Organization(
    id: int,
    clerkOrgId: string,
    name: string,
    slug: Option<string>,
    imageUrl: Option<string>)

  /** A membership row; its role is held by the role's (unique) name. */
  datatype Membership = Membership(
    id: int,
    userId: int,
    organizationId: int,
    roleName: string,
    clerkMembershipId: string)

  datatype UserEvent = UserEvent(
    clerkUserId: string,
    eventType: string,
    eventData: Json,
    clerkEventId: Option<string>)

  datatype OrganizationEvent = OrganizationEvent(
    clerkOrgId: Option<string>,
    clerkUserId: Option<string>,
    eventType: string,
    eventData: Json,
    clerkEventId: Option<string>)

  /** The roles table: role name (unique) to its description. */
  type RoleTable = map<string, Option<string>>

  /** The whole database; `nextId` is the next identity value handed out. */
  datatype State = State(
    users: seq<User>,
    organizations: seq<Organization>,
    roles: RoleTable,
    memberships: seq<Membership>,
    userEvents: seq<UserEvent>,
    organizationEvents: seq<OrganizationEvent>,
    nextId: int)

  // ------------------------------------------------------------------
  // Keys
  // ------------------------------------------------------------------

  function UserClerkKey(u: User): string { u.clerkUserId }
  function UserIdKey(u: User): int { u.id }
  function OrganizationClerkKey(o: Organization): string { o.clerkOrgId }
  function OrganizationIdKey(o: Organization): int { o.id }
  function MembershipClerkKey(m: Membership): string { m.clerkMembershipId }
  function MembershipIdKey(m: Membership): int { m.id }
  function MembershipPairKey(m: Membership): (int, int) { (m.userId, m.organizationId) }

  // ------------------------------------------------------------------
  // UserRepository and OrganizationRepository lookups
  // ------------------------------------------------------------------

  /** `userRepository.findByClerkUserId`, as a row index. */
  function UserIndex(users: seq<User>, clerkUserId: string): (r: Option<nat>)
    ensures r.Some? ==> r.value < |users| && users[r.value].clerkUserId == clerkUserId
    ensures r.None? <==> forall j :: 0 <= j < |users| ==> users[j].clerkUserId != clerkUserId
  {
    FirstIndex(users, (u: User) => u.clerkUserId == clerkUserId)
  }

  /** `userRepository.findById`, as a row index. */
  function UserIndexById(users: seq<User>, id: int): (r: Option<nat>)
    ensures r.Some? ==> r.value < |users| && users[r.value].id == id
    ensures r.None? <==> forall j :: 0 <= j < |users| ==> users[j].id != id
  {
    FirstIndex(users, (u: User) => u.id == id)
  }

  /** `organizationRepository.findByClerkOrgId`, as a row index. */
  function OrganizationIndex(orgs: seq<Organization>, clerkOrgId: string): (r: Option<nat>)
    ensures r.Some? ==> r.value < |orgs| && orgs[r.value].clerkOrgId == clerkOrgId
    ensures r.None? <==> forall j :: 0 <= j < |orgs| ==> orgs[j].clerkOrgId != clerkOrgId
  {
    FirstIndex(orgs, (o: Organization) => o.clerkOrgId == clerkOrgId)
  }

  /** `organizationRepository.findById`, as a row index. */
  function OrganizationIndexById(orgs: seq<Organization>, id: int): (r: Option<nat>)
    ensures r.Some? ==> r.value < |orgs| && orgs[r.value].id == id
    ensures r.None? <==> forall j :: 0 <= j < |orgs| ==> orgs[j].id != id
  {
    FirstIndex(orgs, (o: Organization) => o.id == id)
  }

  function FindUser(users: seq<User>, clerkUserId: string): Option<User>
  {
    match UserIndex(users, clerkUserId)
    case None => None
    case Some(i) => Some(users[i])
  }

  function FindUserById(users: seq<User>, id: int): Option<User>
  {
    match UserIndexById(users, id)
    case None => None
    case Some(i) => Some(users[i])
  }

  function FindOrganization(orgs: seq<Organization>, clerkOrgId: string): Option<Organization>
  {
    match OrganizationIndex(orgs, clerkOrgId)
    case None => None
    case Some(i) => Some(orgs[i])
  }

  function FindOrganizationById(orgs: seq<Organization>, id: int): Option<Organization>
  {
    match OrganizationIndexById(orgs, id)
    case None => None
    case Some(i) => Some(orgs[i])
  }

  /** `userEventRepository.existsByClerkEventId` */
  predicate HasUserEventId(log: seq<UserEvent>, eventId: string)
  {
    exists i :: 0 <= i < |log| && log[i].clerkEventId == Some(eventId)
  }

  /** `organizationEventRepository.existsByClerkEventId` */
  predicate HasOrganizationEventId(log: seq<OrganizationEvent>, eventId: string)
  {
    exists i :: 0 <= i < |log| && log[i].clerkEventId == Some(eventId)
  }

  // ------------------------------------------------------------------
  // Database constraints
  // ------------------------------------------------------------------

  /** UNIQUE(clerk_user_id), a primary key, and identities already handed out. */
  ghost predicate UsersValid(s: State)
  {
    && UniqueBy(s.users, UserClerkKey)
    && UniqueBy(s.users, UserIdKey)
    && forall i :: 0 <= i < |s.users| ==> s.users[i].id < s.nextId
  }

  /** UNIQUE(clerk_org_id), a primary key, and identities already handed out. */
  ghost predicate OrganizationsValid(s: State)
  {
    && UniqueBy(s.organizations, OrganizationClerkKey)
    && UniqueBy(s.organizations, OrganizationIdKey)
    && forall i :: 0 <= i < |s.organizations| ==> s.organizations[i].id < s.nextId
  }

  /** UNIQUE(clerk_membership_id), UNIQUE(user_id, organization_id), a
    * primary key, and the three foreign keys (user, organization, role). */
  ghost predicate MembershipsValid(s: State)
  {
    && UniqueBy(s.memberships, MembershipClerkKey)
    && UniqueBy(s.memberships, MembershipPairKey)
    && UniqueBy(s.memberships, MembershipIdKey)
    && (forall i :: 0 <= i < |s.memberships| ==> s.memberships[i].id < s.nextId)
    && (forall i :: 0 <= i < |s.memberships| ==> UserIndexById(s.users, s.memberships[i].userId).Some?)
    && (forall i :: 0 <= i < |s.memberships| ==>
          OrganizationIndexById(s.organizations, s.memberships[i].organizationId).Some?)
    && (forall i :: 0 <= i < |s.memberships| ==> s.memberships[i].roleName in s.roles)
  }

  /** Some membership row still references the role with this name. */
  function RoleReferenced(memberships: seq<Membership>, name: string): (r: bool)
    ensures r <==> exists i :: 0 <= i < |memberships| && memberships[i].roleName == name
  {
    exists i :: 0 <= i < |memberships| && memberships[i].roleName == name
  }

  /** An external event id, when one was derived, is recorded at most once.
    * No column enforces this: the handlers keep it by checking the id before
    * they write. */
  ghost predicate UniqueUserEventIds(log: seq<UserEvent>)
  {
    forall i, j :: 0 <= i < |log| && 0 <= j < |log| ==>
      (log[i].clerkEventId.Some? && log[i].clerkEventId == log[j].clerkEventId ==> i == j)
  }

  ghost predicate UniqueOrganizationEventIds(log: seq<OrganizationEvent>)
  {
    forall i, j :: 0 <= i < |log| && 0 <= j < |log| ==>
      (log[i].clerkEventId.Some? && log[i].clerkEventId == log[j].clerkEventId ==> i == j)
  }

  ghost predicate AuditValid(s: State)
  {
    UniqueUserEventIds(s.userEvents) && UniqueOrganizationEventIds(s.organizationEvents)
  }

  ghost predicate Valid(s: State)
  {
    UsersValid(s) && OrganizationsValid(s) && MembershipsValid(s) && AuditValid(s)
  }

  // ------------------------------------------------------------------
  // The mutable database the services share
  // ------------------------------------------------------------------

  class Database {
    var users: seq<User>
    var organizations: seq<Organization>
    var roles: RoleTable
    var memberships: seq<Membership>
    var userEvents: seq<UserEvent>
    var organizationEvents: seq<OrganizationEvent>
    var nextId: int

    function Snapshot(): State
      reads this
    {
      State(users, organizations, roles, memberships, userEvents, organizationEvents, nextId)
    }

    constructor (s: State)
      ensures Snapshot() == s
    {
      users, organizations, roles := s.users, s.organizations, s.roles;
      memberships, userEvents, organizationEvents := s.memberships, s.userEvents, s.organizationEvents;
      nextId := s.nextId;
    }

    /** Inserts a row with a fresh identity (`save` of a new entity). */
    method NewId() returns (id: int)
      modifies this
      ensures id == old(nextId) && nextId == old(nextId) + 1
      ensures Snapshot() == old(Snapshot()).(nextId := old(nextId) + 1)
    {
      id := nextId;
      nextId := nextId + 1;
    }
  }
}
