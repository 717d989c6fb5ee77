/** The older webhook service, kept beside the current one: the same tables,
  * fewer payload shapes understood, no audit row for skipped events, and an
  * audit event id taken from the top-level `id` only. */
module LegacySyncSpec {
  import opened Common
  import opened Json
  import opened Store
  import opened Audit
  import opened MembershipRepository
  import Current = SyncSpec

  type Outcome = Current.Outcome
  type Step = Current.Step

  /** The messages with which handlers re-throw what they caught. */
  const UserCreatedFailure := "Failed to process user.created event"
  const UserUpdatedFailure := "Failed to process user.updated event"
  const OrganizationCreatedFailure := "Failed to process organization.created event"
  const MembershipCreatedFailure := "Failed to process organizationMembership.created event"
  const MembershipDeletedFailure := "Failed to process organizationMembership.deleted event"

  /** The audit event id: the event's top-level `id`, nothing else. */
  function EventIdOf(ev: Json): (r: Option<string>)
    ensures r.Some? <==> Has(ev, "id")
    ensures r.Some? ==> r.value == Text(ev, "id")
  {
    if Has(ev, "id") then Some(Text(ev, "id")) else None
  }

  /** `storeUserEvent`: the caller's user id is recorded as given. */
  function StoreUserEvent(log: seq<UserEvent>, clerkUserId: string, eventType: string, ev: Json, env: Env)
    : (r: seq<UserEvent>)
    ensures r == log || r == log + [UserEvent(clerkUserId, eventType, ev, EventIdOf(ev))]
    ensures r != log <==> env.auditStoreUp && !(Has(ev, "id") && HasUserEventId(log, Text(ev, "id")))
  {
    var eventId := EventIdOf(ev);
    if eventId.Some? && HasUserEventId(log, eventId.value) then log
    else if !env.auditStoreUp then log
    else log + [UserEvent(clerkUserId, eventType, ev, eventId)]
  }

  /** `storeOrganizationEvent`: both ids are recorded as given. */
  function StoreOrganizationEvent(log: seq<OrganizationEvent>, clerkOrgId: Option<string>, clerkUserId: Option<string>,
                                  eventType: string, ev: Json, env: Env)
    : (r: seq<OrganizationEvent>)
    ensures r == log || r == log + [OrganizationEvent(clerkOrgId, clerkUserId, eventType, ev, EventIdOf(ev))]
    ensures r != log <==> env.auditStoreUp && !(Has(ev, "id") && HasOrganizationEventId(log, Text(ev, "id")))
  {
    var eventId := EventIdOf(ev);
    if eventId.Some? && HasOrganizationEventId(log, eventId.value) then log
    else if !env.auditStoreUp then log
    else log + [OrganizationEvent(clerkOrgId, clerkUserId, eventType, ev, eventId)]
  }

  function UserAudit(s: State, clerkUserId: string, eventType: string, ev: Json, env: Env): State
  {
    s.(userEvents := StoreUserEvent(s.userEvents, clerkUserId, eventType, ev, env))
  }

  function OrganizationAudit(s: State, clerkOrgId: Option<string>, clerkUserId: Option<string>, eventType: string,
                             ev: Json, env: Env): State
  {
    s.(organizationEvents := StoreOrganizationEvent(s.organizationEvents, clerkOrgId, clerkUserId, eventType, ev, env))
  }

  /** What the legacy email lookup finds: no list (or an empty one), the
    * first element's `email_address`, or a first element without one, which
    * dereferences a null. */
  datatype EmailLookup = NoEmail | Email(address: string) | NullEmail

  function EmailOf(data: Json): (r: EmailLookup)
    ensures Current.FirstAddress(data).None? ==> r == NoEmail
    ensures Current.FirstAddress(data).Some? && Has(Current.FirstAddress(data).value, "email_address") ==>
              r == Email(Text(Current.FirstAddress(data).value, "email_address"))
    ensures Current.FirstAddress(data).Some? && !Has(Current.FirstAddress(data).value, "email_address") ==>
              r == NullEmail
  {
    var addresses := Get(data, "email_addresses");
    if addresses.Some? && addresses.value.JArray? && |addresses.value.items| > 0 then
      var first := addresses.value.items[0];
      if Has(first, "email_address") then Email(Text(first, "email_address")) else NullEmail
    else NoEmail
  }

  /** The role a membership asks for: `role`, else "USER". */
  function RoleNameOf(data: Json): (r: string)
    ensures Has(data, "role") ==> r == Text(data, "role")
    ensures !Has(data, "role") ==> r == "USER"
  {
    if Has(data, "role") then Text(data, "role") else "USER"
  }

  /** `processUserCreated` */
  function UserCreated(s: State, ev: Json, env: Env): (r: Step)
    ensures r.outcome.Failed? ==> r.state == s
    ensures r.state.organizations == s.organizations && r.state.memberships == s.memberships
    ensures r.state.roles == s.roles && r.state.organizationEvents == s.organizationEvents
    ensures var data := Get(ev, "data");
            r.outcome.Done? <==> data.Some? && Has(data.value, "id") && !EmailOf(data.value).NullEmail?
    ensures var data := Get(ev, "data");
            r.outcome.Done? && EmailOf(data.value).Email? ==> UserIndex(r.state.users, Text(data.value, "id")).Some?
    ensures var data := Get(ev, "data");
            var adds := data.Some? && Has(data.value, "id") && EmailOf(data.value).Email?
                        && UserIndex(s.users, Text(data.value, "id")).None?;
            (!adds ==> r.state.users == s.users && r.state.nextId == s.nextId)
            && (adds ==> r.state.nextId == s.nextId + 1
                         && r.state.users == s.users + [User(s.nextId, Text(data.value, "id"), EmailOf(data.value).address,
                                                             Current.FieldText(data.value, "first_name"),
                                                             Current.FieldText(data.value, "last_name"),
                                                             Current.FieldText(data.value, "image_url"))])
  {
    var data := Get(ev, "data");
    if data.None? || !Has(data.value, "id") then Current.Step(Current.Failed(UserCreatedFailure), s)
    else
      var clerkUserId := Text(data.value, "id");
      match EmailOf(data.value)
      case NullEmail => Current.Step(Current.Failed(UserCreatedFailure), s)
      case NoEmail => Current.Step(Current.Done, s)
      case Email(email) =>
        if UserIndex(s.users, clerkUserId).Some? then Current.Step(Current.Done, s)
        else
          var user := User(s.nextId, clerkUserId, email, Current.FieldText(data.value, "first_name"),
                           Current.FieldText(data.value, "last_name"), Current.FieldText(data.value, "image_url"));
          var users := s.users + [user];
          assert users[|s.users|].clerkUserId == clerkUserId;
          Current.Step(Current.Done, UserAudit(s.(users := users, nextId := s.nextId + 1),
                                               clerkUserId, "user.created", ev, env))
  }

  /** `processUserUpdated` */
  function UserUpdated(s: State, ev: Json, env: Env): (r: Step)
    ensures r.outcome.Failed? ==> r.state == s
    ensures r.state.organizations == s.organizations && r.state.memberships == s.memberships
    ensures r.state.roles == s.roles && r.state.organizationEvents == s.organizationEvents
  {
    var data := Get(ev, "data");
    if data.None? || !Has(data.value, "id") then Current.Step(Current.Failed(UserUpdatedFailure), s)
    else
      var clerkUserId := Text(data.value, "id");
      match UserIndex(s.users, clerkUserId)
      case None =>
        var created := UserCreated(s, ev, env);
        if created.outcome.Failed? then Current.Step(Current.Failed(UserUpdatedFailure), s)
        else created
      case Some(i) =>
        var user := s.users[i];
        var updated := user.(firstName := Current.Overwrite(user.firstName, data.value, "first_name"),
                             lastName := Current.Overwrite(user.lastName, data.value, "last_name"),
                             imageUrl := Current.Overwrite(user.imageUrl, data.value, "image_url"));
        Current.Step(Current.Done, UserAudit(s.(users := s.users[i := updated]), clerkUserId, "user.updated", ev, env))
  }

  /** `processOrganizationCreated` */
  function OrganizationCreated(s: State, ev: Json, env: Env): (r: Step)
    ensures r.outcome.Failed? ==> r.state == s
    ensures r.state.users == s.users && r.state.memberships == s.memberships
    ensures r.state.roles == s.roles && r.state.userEvents == s.userEvents
    ensures r.outcome.Done? <==> Get(ev, "data").Some? && Has(Get(ev, "data").value, "id")
    ensures r.outcome.Done? ==> OrganizationIndex(r.state.organizations, Text(Get(ev, "data").value, "id")).Some?
    ensures r.outcome.Done? && OrganizationIndex(s.organizations, Text(Get(ev, "data").value, "id")).Some? ==>
              r.state == s
    ensures r.outcome.Done? && OrganizationIndex(s.organizations, Text(Get(ev, "data").value, "id")).None? ==>
              var data := Get(ev, "data").value;
              r.state.nextId == s.nextId + 1
              && r.state.organizations == s.organizations
                   + [Organization(s.nextId, Text(data, "id"),
                                   Current.FieldText(data, "name").GetOr(Current.UnnamedOrganization),
                                   Current.FieldText(data, "slug"), Current.FieldText(data, "image_url"))]
  {
    var data := Get(ev, "data");
    if data.None? || !Has(data.value, "id") then
      Current.Step(Current.Failed(OrganizationCreatedFailure), s)
    else
      var clerkOrgId := Text(data.value, "id");
      if OrganizationIndex(s.organizations, clerkOrgId).Some? then Current.Step(Current.Done, s)
      else
        var org := Organization(s.nextId, clerkOrgId,
                                Current.FieldText(data.value, "name").GetOr(Current.UnnamedOrganization),
                                Current.FieldText(data.value, "slug"), Current.FieldText(data.value, "image_url"));
        var orgs := s.organizations + [org];
        assert orgs[|s.organizations|].clerkOrgId == clerkOrgId;
        Current.Step(Current.Done, OrganizationAudit(s.(organizations := orgs, nextId := s.nextId + 1),
                                                     Some(clerkOrgId), None, "organization.created", ev, env))
  }

  /** `processOrganizationMembershipCreated` */
  function MembershipCreated(s: State, ev: Json, env: Env): (r: Step)
    ensures r.outcome.Failed? ==> r.state == s
    ensures r.state.users == s.users && r.state.organizations == s.organizations
    ensures r.state.roles == s.roles && r.state.userEvents == s.userEvents
  {
    var data := Get(ev, "data");
    var failed := Current.Step(Current.Failed(MembershipCreatedFailure), s);
    if data.None? || !Has(data.value, "id") || !Has(data.value, "organization_id")
       || TextAt(data.value, ["public_user_data", "user_id"]).None?
    then failed
    else
      var clerkMembershipId := Text(data.value, "id");
      var clerkOrgId := Text(data.value, "organization_id");
      var clerkUserId := TextAt(data.value, ["public_user_data", "user_id"]).value;
      var role := Current.ResolveRole(s.roles, RoleNameOf(data.value));
      if MembershipIndex(s.memberships, clerkMembershipId).Some? then Current.Step(Current.Done, s)
      else if UserIndex(s.users, clerkUserId).None? || OrganizationIndex(s.organizations, clerkOrgId).None?
              || role.None? then failed
      else
        var user := s.users[UserIndex(s.users, clerkUserId).value];
        var org := s.organizations[OrganizationIndex(s.organizations, clerkOrgId).value];
        Current.Step(Current.Done,
                     OrganizationAudit(Current.UpsertMembership(s, user.id, org.id, role.value, clerkMembershipId),
                                       Some(clerkOrgId), Some(clerkUserId), "organizationMembership.created", ev, env))
  }

  /** `processOrganizationMembershipDeleted` */
  function MembershipDeleted(s: State, ev: Json, env: Env): (r: Step)
    ensures r.outcome.Failed? ==> r.state == s
    ensures r.state.users == s.users && r.state.organizations == s.organizations
    ensures r.state.roles == s.roles && r.state.userEvents == s.userEvents && r.state.nextId == s.nextId
  {
    var data := Get(ev, "data");
    if data.None? || !Has(data.value, "id") then
      Current.Step(Current.Failed(MembershipDeletedFailure), s)
    else
      var clerkMembershipId := Text(data.value, "id");
      Current.Step(Current.Done,
                   OrganizationAudit(Current.MembershipRemoved(s, clerkMembershipId), Current.FieldText(data.value, "organization_id"),
                                     TextAt(data.value, ["public_user_data", "user_id"]),
                                     "organizationMembership.deleted", ev, env))
  }

  /** The public handlers of the legacy service. */
  datatype Handler = OnUserCreated | OnUserUpdated | OnOrganizationCreated | OnMembershipCreated | OnMembershipDeleted

  function Apply(h: Handler, s: State, ev: Json, env: Env): (r: Step)
    ensures r.outcome.Failed? ==> r.state == s
  {
    match h
    case OnUserCreated => UserCreated(s, ev, env)
    case OnUserUpdated => UserUpdated(s, ev, env)
    case OnOrganizationCreated => OrganizationCreated(s, ev, env)
    case OnMembershipCreated => MembershipCreated(s, ev, env)
    case OnMembershipDeleted => MembershipDeleted(s, ev, env)
  }
}
