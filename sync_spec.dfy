/** The Clerk webhook handlers of the current webhook service as transitions
  * of the database state. A handler either completes or throws; a throw
  * rolls the transaction back, so a failed step leaves the state as it
  * was. */
module SyncSpec {
  import opened Common
  import opened Json
  import opened Store
  import opened Audit
  import opened MembershipRepository

  datatype Outcome = Done | Failed(message: string)

  datatype Step = Step(outcome: Outcome, state: State)

  const UnnamedOrganization := "Unnamed Organization"
  const CreatedRoleDescription := "Role created from Clerk webhook"
  const UnknownUser := "unknown"

  /** The prefixes with which handlers re-throw what they caught. */
  const UserCreatedFailure := "Failed to process user.created event: "
  const OrganizationCreatedFailure := "Failed to process organization.created event: "
  const MembershipCreatedFailure := "Failed to process organizationMembership.created event"
  const MembershipUpdatedFailure := "Failed to process organizationMembership.updated event: "
  const UserCreatedNoData := UserCreatedFailure + "user.created event missing 'data' field"
  const UserCreatedNoId := UserCreatedFailure + "user.created event missing 'id' field"
  const UserUpdatedFailure := "Failed to process user.updated event"
  const OrganizationCreatedNoData := OrganizationCreatedFailure + "organization.created event missing 'data' field"
  const OrganizationCreatedNoId := OrganizationCreatedFailure + "organization.created event missing 'id' field"
  const OrganizationUpdatedNoData := "Failed to process organization.updated event: organization.updated event missing 'data' field"
  const OrganizationUpdatedNoId := "Failed to process organization.updated event: organization.updated event missing 'id' field"
  const OrganizationDeletedNoData := "Failed to process organization.deleted event: organization.deleted event missing 'data' field"
  const OrganizationDeletedNoId := "Failed to process organization.deleted event: organization.deleted event missing 'id' field"
  const MembershipUpdatedNoData := MembershipUpdatedFailure + "organizationMembership.updated event missing 'data' field"
  const MembershipUpdatedNoId := MembershipUpdatedFailure + "organizationMembership.updated event missing 'id' field"
  const MembershipUpdatedNoOrganization := MembershipUpdatedFailure + "organizationMembership.updated event missing 'organization_id' field"
  const MembershipUpdatedNoUser := MembershipUpdatedFailure + "organizationMembership.updated event missing 'user_id' field"
  const MembershipUpdatedNoDefaultRole := MembershipUpdatedFailure + "Default USER role not found"
  const MembershipDeletedFailure := "Failed to process organizationMembership.deleted event"
  /** The commit of a role.deleted whose role a membership still references
    * violates the non-null role_id foreign key and rolls back. */
  const RoleDeletedStillReferenced := "role.deleted: role_id is still referenced by memberships"

  // ------------------------------------------------------------------
  // Payload extraction
  // ------------------------------------------------------------------

  /** The first element of `email_addresses`, when that field is a non-empty list. */
  function FirstAddress(data: Json): (r: Option<Json>)
    ensures r.Some? <==> Has(data, "email_addresses") && data.fields["email_addresses"].JArray? &&
                         |data.fields["email_addresses"].items| > 0
    ensures r.Some? ==> r.value == data.fields["email_addresses"].items[0]
  {
    var addresses := Get(data, "email_addresses");
    if addresses.Some? && addresses.value.JArray? && |addresses.value.items| > 0 then Some(addresses.value.items[0])
    else None
  }

  /** The user's email: the first element of `email_addresses` (its
    * `email_address`, else its `email`, else the element itself when it is a
    * string); only when that list is absent, empty or not a list,
    * `primary_email_address`, else `email`. A first element with none of the
    * three gives no email at all: the other fields are not consulted. */
  function EmailOf(data: Json): (r: Option<string>)
    ensures FirstAddress(data).Some? ==>
      var first := FirstAddress(data).value;
      (Has(first, "email_address") ==> r == Some(Text(first, "email_address"))) &&
      (!Has(first, "email_address") && Has(first, "email") ==> r == Some(Text(first, "email"))) &&
      (!Has(first, "email_address") && !Has(first, "email") && first.JString? ==> r == Some(first.text)) &&
      (!Has(first, "email_address") && !Has(first, "email") && !first.JString? ==> r.None?)
    ensures FirstAddress(data).None? ==>
      (Has(data, "primary_email_address") ==> r == Some(Text(data, "primary_email_address"))) &&
      (!Has(data, "primary_email_address") && Has(data, "email") ==> r == Some(Text(data, "email"))) &&
      (!Has(data, "primary_email_address") && !Has(data, "email") ==> r.None?)
  {
    match FirstAddress(data)
    case Some(first) =>
      if Has(first, "email_address") then Some(Text(first, "email_address"))
      else if Has(first, "email") then Some(Text(first, "email"))
      else if first.JString? then Some(first.text)
      else None
    case None =>
      if Has(data, "primary_email_address") then Some(Text(data, "primary_email_address"))
      else if Has(data, "email") then Some(Text(data, "email"))
      else None
  }

  /** The role name a membership payload asks for: `role`, else
    * `public_metadata.role`, else `public_user_data.role`, else "USER". */
  function RoleNameOf(data: Json): (r: string)
    ensures Has(data, "role") ==> r == Text(data, "role")
    ensures !Has(data, "role") && TextAt(data, ["public_metadata", "role"]).Some? ==>
      r == TextAt(data, ["public_metadata", "role"]).value
    ensures !Has(data, "role") && TextAt(data, ["public_metadata", "role"]).None? &&
            TextAt(data, ["public_user_data", "role"]).Some? ==>
              r == TextAt(data, ["public_user_data", "role"]).value
    ensures !Has(data, "role") && TextAt(data, ["public_metadata", "role"]).None? &&
            TextAt(data, ["public_user_data", "role"]).None? ==>
              r == "USER"
  {
    if Has(data, "role") then Text(data, "role")
    else if TextAt(data, ["public_metadata", "role"]).Some? then TextAt(data, ["public_metadata", "role"]).value
    else if TextAt(data, ["public_user_data", "role"]).Some? then TextAt(data, ["public_user_data", "role"]).value
    else "USER"
  }

  /** The role a membership gets: the upper-cased requested name when that
    * role exists, else USER; None when USER is missing too. */
  function ResolveRole(roles: RoleTable, roleName: string): (r: Option<string>)
    ensures r.Some? ==> r.value in roles
    ensures ToUpper(roleName) in roles ==> r == Some(ToUpper(roleName))
    ensures ToUpper(roleName) !in roles ==> r == (if "USER" in roles then Some("USER") else None)
  {
    if ToUpper(roleName) in roles then Some(ToUpper(roleName))
    else if "USER" in roles then Some("USER")
    else None
  }

  /** A field that an update handler overwrites only when the payload has it. */
  function Overwrite(current: Option<string>, data: Json, key: string): (r: Option<string>)
    ensures Has(data, key) ==> r == Some(Text(data, key))
    ensures !Has(data, key) ==> r == current
  {
    if Has(data, key) then Some(Text(data, key)) else current
  }

  /** The optional text of a present field (`has(k) ? get(k).asText() : null`). */
  function FieldText(data: Json, key: string): Option<string>
  {
    if Has(data, key) then Some(Text(data, key)) else None
  }

  function UserAudit(s: State, clerkUserId: string, eventType: string, ev: Json, env: Env): State
  {
    s.(userEvents := StoreUserEvent(s.userEvents, clerkUserId, eventType, ev, env))
  }

  function OrganizationAudit(s: State, clerkOrgId: Option<string>, clerkUserId: Option<string>, eventType: string,
                             ev: Json, env: Env): State
  {
    s.(organizationEvents := StoreOrganizationEvent(s.organizationEvents, clerkOrgId, clerkUserId, eventType, ev, env))
  }

  // ------------------------------------------------------------------
  // Users
  // ------------------------------------------------------------------

  /** `processUserCreated` */
  function UserCreated(s: State, ev: Json, env: Env): (r: Step)
    ensures r.outcome.Failed? ==> r.state == s
    ensures r.state.organizations == s.organizations && r.state.memberships == s.memberships
    ensures r.state.roles == s.roles && r.state.organizationEvents == s.organizationEvents
  {
    var data := Get(ev, "data");
    if data.None? then Step(Failed(UserCreatedNoData), s)
    else if !Has(data.value, "id") then Step(Failed(UserCreatedNoId), s)
    else
      var clerkUserId := Text(data.value, "id");
      var email := EmailOf(data.value);
      var audited := UserAudit(s, clerkUserId, "user.created", ev, env);
      if email.None? || email.value == "" then Step(Done, audited)
      else if UserIndex(s.users, clerkUserId).Some? then Step(Done, audited)
      else
        var user := User(s.nextId, clerkUserId, email.value, FieldText(data.value, "first_name"),
                         FieldText(data.value, "last_name"), FieldText(data.value, "image_url"));
        Step(Done, audited.(users := s.users + [user], nextId := s.nextId + 1))
  }

  /** `processUserUpdated` */
  function UserUpdated(s: State, ev: Json, env: Env): (r: Step)
    ensures r.outcome.Failed? ==> r.state == s
    ensures r.state.organizations == s.organizations && r.state.memberships == s.memberships
    ensures r.state.roles == s.roles && r.state.organizationEvents == s.organizationEvents
  {
    var data := Get(ev, "data");
    if data.None? || !Has(data.value, "id") then Step(Failed(UserUpdatedFailure), s)
    else
      var clerkUserId := Text(data.value, "id");
      match UserIndex(s.users, clerkUserId)
      case None => UserCreated(s, ev, env)
      case Some(i) =>
        var user := s.users[i];
        var updated := user.(firstName := Overwrite(user.firstName, data.value, "first_name"),
                             lastName := Overwrite(user.lastName, data.value, "last_name"),
                             imageUrl := Overwrite(user.imageUrl, data.value, "image_url"));
        Step(Done, UserAudit(s.(users := s.users[i := updated]), clerkUserId, "user.updated", ev, env))
  }

  // ------------------------------------------------------------------
  // Organizations
  // ------------------------------------------------------------------

  /** `processOrganizationCreated` */
  function OrganizationCreated(s: State, ev: Json, env: Env): (r: Step)
    ensures r.outcome.Failed? ==> r.state == s
    ensures r.state.users == s.users && r.state.memberships == s.memberships
    ensures r.state.roles == s.roles && r.state.userEvents == s.userEvents
    ensures r.outcome.Done? <==> Get(ev, "data").Some? && Has(Get(ev, "data").value, "id")
    ensures r.outcome.Done? ==> OrganizationIndex(r.state.organizations, Text(Get(ev, "data").value, "id")).Some?
    ensures r.outcome.Done? && OrganizationIndex(s.organizations, Text(Get(ev, "data").value, "id")).Some? ==>
              r.state.organizations == s.organizations && r.state.nextId == s.nextId
    ensures r.outcome.Done? && OrganizationIndex(s.organizations, Text(Get(ev, "data").value, "id")).None? ==>
              var data := Get(ev, "data").value;
              r.state.nextId == s.nextId + 1
              && r.state.organizations == s.organizations
                   + [Organization(s.nextId, Text(data, "id"), FieldText(data, "name").GetOr(UnnamedOrganization),
                                   FieldText(data, "slug"), FieldText(data, "image_url"))]
  {
    var data := Get(ev, "data");
    if data.None? then Step(Failed(OrganizationCreatedNoData), s)
    else if !Has(data.value, "id") then Step(Failed(OrganizationCreatedNoId), s)
    else
      var clerkOrgId := Text(data.value, "id");
      var audited := OrganizationAudit(s, Some(clerkOrgId), None, "organization.created", ev, env);
      if OrganizationIndex(s.organizations, clerkOrgId).Some? then Step(Done, audited)
      else
        var org := Organization(s.nextId, clerkOrgId, FieldText(data.value, "name").GetOr(UnnamedOrganization),
                                FieldText(data.value, "slug"), FieldText(data.value, "image_url"));
        var orgs := s.organizations + [org];
        assert orgs[|s.organizations|].clerkOrgId == clerkOrgId;
        Step(Done, audited.(organizations := orgs, nextId := s.nextId + 1))
  }

  /** `processOrganizationUpdated` */
  function OrganizationUpdated(s: State, ev: Json, env: Env): (r: Step)
    ensures r.outcome.Failed? ==> r.state == s
    ensures r.state.users == s.users && r.state.memberships == s.memberships
    ensures r.state.roles == s.roles && r.state.userEvents == s.userEvents
  {
    var data := Get(ev, "data");
    if data.None? then Step(Failed(OrganizationUpdatedNoData), s)
    else if !Has(data.value, "id") then Step(Failed(OrganizationUpdatedNoId), s)
    else
      var clerkOrgId := Text(data.value, "id");
      match OrganizationIndex(s.organizations, clerkOrgId)
      case None => OrganizationCreated(s, ev, env)
      case Some(i) =>
        var org := s.organizations[i];
        var updated := org.(name := FieldText(data.value, "name").GetOr(org.name),
                            slug := Overwrite(org.slug, data.value, "slug"),
                            imageUrl := Overwrite(org.imageUrl, data.value, "image_url"));
        Step(Done, OrganizationAudit(s.(organizations := s.organizations[i := updated]),
                                     Some(clerkOrgId), None, "organization.updated", ev, env))
  }

  /** The memberships left after `deleteAll(findByOrganizationId(orgId))`. */
  function WithoutOrganization(ms: seq<Membership>, orgId: int): (r: seq<Membership>)
    ensures forall m :: m in r <==> m in ms && m.organizationId != orgId
  {
    Filter(ms, (m: Membership) => m.organizationId != orgId)
  }

  /** `processOrganizationDeleted` */
  function OrganizationDeleted(s: State, ev: Json, env: Env): (r: Step)
    ensures r.outcome.Failed? ==> r.state == s
    ensures r.state.users == s.users && r.state.roles == s.roles && r.state.userEvents == s.userEvents
    ensures r.state.nextId == s.nextId
  {
    var data := Get(ev, "data");
    if data.None? then Step(Failed(OrganizationDeletedNoData), s)
    else if !Has(data.value, "id") then Step(Failed(OrganizationDeletedNoId), s)
    else
      var clerkOrgId := Text(data.value, "id");
      Step(Done, OrganizationAudit(OrganizationRemoved(s, clerkOrgId), Some(clerkOrgId), None, "organization.deleted", ev, env))
  }

  /** The organization with this clerk id, if any, deleted together with its
    * memberships. */
  function OrganizationRemoved(s: State, clerkOrgId: string): (r: State)
    ensures r.users == s.users && r.roles == s.roles && r.nextId == s.nextId
    ensures r.userEvents == s.userEvents && r.organizationEvents == s.organizationEvents
    ensures OrganizationIndex(s.organizations, clerkOrgId).None? ==> r == s
  {
    match OrganizationIndex(s.organizations, clerkOrgId)
    case None => s
    case Some(i) =>
      s.(memberships := WithoutOrganization(s.memberships, s.organizations[i].id),
         organizations := RemoveAt(s.organizations, i))
  }

  // ------------------------------------------------------------------
  // Memberships
  // ------------------------------------------------------------------

  /** `processOrganizationMembershipCreated` */
  function MembershipCreated(s: State, ev: Json, env: Env): (r: Step)
    ensures r.outcome.Failed? ==> r.state == s
    ensures r.state.users == s.users && r.state.organizations == s.organizations
    ensures r.state.roles == s.roles && r.state.userEvents == s.userEvents
  {
    var data := Get(ev, "data");
    if data.None? || !Has(data.value, "id") || !Has(data.value, "organization_id")
       || TextAt(data.value, ["public_user_data", "user_id"]).None?
    then Step(Failed(MembershipCreatedFailure), s)
    else
      var clerkMembershipId := Text(data.value, "id");
      var clerkOrgId := Text(data.value, "organization_id");
      var clerkUserId := TextAt(data.value, ["public_user_data", "user_id"]).value;
      var roleName := RoleNameOf(data.value);
      if MembershipIndex(s.memberships, clerkMembershipId).Some? then Step(Done, s)
      else if UserIndex(s.users, clerkUserId).None? then Step(Failed(MembershipCreatedFailure), s)
      else if OrganizationIndex(s.organizations, clerkOrgId).None? then
        Step(Failed(MembershipCreatedFailure), s)
      else if ResolveRole(s.roles, roleName).None? then Step(Failed(MembershipCreatedFailure), s)
      else
        var user := s.users[UserIndex(s.users, clerkUserId).value];
        var org := s.organizations[OrganizationIndex(s.organizations, clerkOrgId).value];
        var role := ResolveRole(s.roles, roleName).value;
        Step(Done, OrganizationAudit(UpsertMembership(s, user.id, org.id, role, clerkMembershipId),
                                     Some(clerkOrgId), Some(clerkUserId),
                                     "organizationMembership.created", ev, env))
  }

  /** The upsert of `processOrganizationMembershipCreated`: the membership of
    * the (user, organization) pair takes the role and the clerk id, or a new
    * one is appended with the next database id. */
  function UpsertMembership(s: State, userId: int, organizationId: int, role: string,
                            clerkMembershipId: string): (r: State)
    ensures r.users == s.users && r.organizations == s.organizations && r.roles == s.roles
    ensures r.userEvents == s.userEvents && r.organizationEvents == s.organizationEvents
    ensures PairIndex(s.memberships, userId, organizationId).Some? ==> r.nextId == s.nextId && |r.memberships| == |s.memberships|
    ensures PairIndex(s.memberships, userId, organizationId).None? ==>
              r.nextId == s.nextId + 1 && r.memberships == s.memberships + [Membership(s.nextId, userId, organizationId, role, clerkMembershipId)]
  {
    match PairIndex(s.memberships, userId, organizationId)
    case Some(i) =>
      s.(memberships := s.memberships[i := s.memberships[i].(roleName := role, clerkMembershipId := clerkMembershipId)])
    case None =>
      s.(memberships := s.memberships + [Membership(s.nextId, userId, organizationId, role, clerkMembershipId)],
         nextId := s.nextId + 1)
  }

  /** The user id of a membership.updated payload:
    * `public_user_data.user_id`, else `user_id`. */
  function MembershipUserId(data: Json): (r: Option<string>)
    ensures TextAt(data, ["public_user_data", "user_id"]).Some? ==> r == TextAt(data, ["public_user_data", "user_id"])
    ensures TextAt(data, ["public_user_data", "user_id"]).None? && Has(data, "user_id") ==> r == Some(Text(data, "user_id"))
    ensures r.None? <==> TextAt(data, ["public_user_data", "user_id"]).None? && !Has(data, "user_id")
  {
    if TextAt(data, ["public_user_data", "user_id"]).Some? then TextAt(data, ["public_user_data", "user_id"])
    else FieldText(data, "user_id")
  }

  /** `processOrganizationMembershipUpdated` */
  function MembershipUpdated(s: State, ev: Json, env: Env): (r: Step)
    ensures r.outcome.Failed? ==> r.state == s
    ensures r.state.users == s.users && r.state.organizations == s.organizations
    ensures r.state.roles == s.roles && r.state.userEvents == s.userEvents
  {
    var data := Get(ev, "data");
    if data.None? then Step(Failed(MembershipUpdatedNoData), s)
    else if !Has(data.value, "id") then Step(Failed(MembershipUpdatedNoId), s)
    else
      var clerkMembershipId := Text(data.value, "id");
      var clerkOrgId := FieldText(data.value, "organization_id");
      var clerkUserId := MembershipUserId(data.value);
      if clerkOrgId.None? then Step(Failed(MembershipUpdatedNoOrganization), s)
      else if clerkUserId.None? then Step(Failed(MembershipUpdatedNoUser), s)
      else
        var roleName := RoleNameOf(data.value);
        match MembershipIndex(s.memberships, clerkMembershipId)
        case None =>
          var created := MembershipCreated(s, ev, env);
          if created.outcome.Failed? then Step(Failed(MembershipUpdatedFailure + created.outcome.message), s)
          else created
        case Some(i) =>
          match ResolveRole(s.roles, roleName)
          case None => Step(Failed(MembershipUpdatedNoDefaultRole), s)
          case Some(role) =>
            var updated := s.memberships[i].(roleName := role, clerkMembershipId := clerkMembershipId);
            Step(Done, OrganizationAudit(s.(memberships := s.memberships[i := updated]), clerkOrgId, clerkUserId,
                                         "organizationMembership.updated", ev, env))
  }

  /** `processOrganizationMembershipDeleted` */
  function MembershipDeleted(s: State, ev: Json, env: Env): (r: Step)
    ensures r.outcome.Failed? ==> r.state == s
    ensures r.state.users == s.users && r.state.organizations == s.organizations
    ensures r.state.roles == s.roles && r.state.userEvents == s.userEvents && r.state.nextId == s.nextId
  {
    var data := Get(ev, "data");
    if data.None? || !Has(data.value, "id") then Step(Failed(MembershipDeletedFailure), s)
    else
      var clerkMembershipId := Text(data.value, "id");
      var clerkOrgId := FieldText(data.value, "organization_id");
      var clerkUserId := TextAt(data.value, ["public_user_data", "user_id"]);
      Step(Done, OrganizationAudit(MembershipRemoved(s, clerkMembershipId), clerkOrgId, clerkUserId,
                                   "organizationMembership.deleted", ev, env))
  }

  /** The membership with this clerk id, if any, deleted. */
  function MembershipRemoved(s: State, clerkMembershipId: string): (r: State)
    ensures r.users == s.users && r.organizations == s.organizations && r.roles == s.roles && r.nextId == s.nextId
    ensures r.userEvents == s.userEvents && r.organizationEvents == s.organizationEvents
    ensures MembershipIndex(s.memberships, clerkMembershipId).None? ==> r == s
  {
    match MembershipIndex(s.memberships, clerkMembershipId)
    case None => s
    case Some(i) => s.(memberships := RemoveAt(s.memberships, i))
  }

  // ------------------------------------------------------------------
  // Informational events: they swallow their own exceptions, and only the
  // commit of a role.deleted can fail
  // ------------------------------------------------------------------

  /** `processEmailCreated` */
  function EmailCreated(s: State, ev: Json, env: Env): (r: Step)
    ensures r.outcome == Done
    ensures r.state == s.(userEvents := r.state.userEvents)
  {
    match Get(ev, "data")
    case None => Step(Done, s)
    case Some(data) =>
      var clerkUserId :=
        if Has(data, "user_id") then Some(Text(data, "user_id")) else TextAt(data, ["user", "id"]);
      Step(Done, UserAudit(s, clerkUserId.GetOr(UnknownUser), "email.created", ev, env))
  }

  /** The ids a role event carries: user from `user_id` or `user.id`,
    * organization from `organization_id` or `organization.id`. */
  function RoleEventUserId(data: Json): (r: Option<string>)
    ensures Has(data, "user_id") ==> r == Some(Text(data, "user_id"))
    ensures !Has(data, "user_id") ==> r == TextAt(data, ["user", "id"])
  {
    if Has(data, "user_id") then Some(Text(data, "user_id")) else TextAt(data, ["user", "id"])
  }

  function RoleEventOrganizationId(data: Json): (r: Option<string>)
    ensures Has(data, "organization_id") ==> r == Some(Text(data, "organization_id"))
    ensures !Has(data, "organization_id") ==> r == TextAt(data, ["organization", "id"])
  {
    if Has(data, "organization_id") then Some(Text(data, "organization_id")) else TextAt(data, ["organization", "id"])
  }

  /** The role name a role event names: `name`, else `key`. */
  function RoleEventName(data: Json): (r: Option<string>)
    ensures Has(data, "name") ==> r == Some(Text(data, "name"))
    ensures !Has(data, "name") && Has(data, "key") ==> r == Some(Text(data, "key"))
    ensures r.None? <==> !Has(data, "name") && !Has(data, "key")
  {
    if Has(data, "name") then Some(Text(data, "name")) else FieldText(data, "key")
  }

  /** A role event goes to the organization log when it names an
    * organization, else to the user log under its user, else under "unknown". */
  function RoleAudit(s: State, data: Json, eventType: string, ev: Json, env: Env): State
  {
    var clerkOrgId := RoleEventOrganizationId(data);
    var clerkUserId := RoleEventUserId(data);
    if clerkOrgId.Some? then OrganizationAudit(s, clerkOrgId, clerkUserId, eventType, ev, env)
    else UserAudit(s, clerkUserId.GetOr(UnknownUser), eventType, ev, env)
  }

  /** The upper-cased role name a role event carries, when its payload has
    * a non-empty `name` or `key`. */
  function RequestedRole(ev: Json): (r: Option<string>)
    ensures r.Some? <==> Get(ev, "data").Some? && RoleEventName(Get(ev, "data").value).Some?
                         && RoleEventName(Get(ev, "data").value).value != ""
    ensures r.Some? ==> r.value == ToUpper(RoleEventName(Get(ev, "data").value).value)
  {
    match Get(ev, "data")
    case None => None
    case Some(data) =>
      var roleName := RoleEventName(data);
      if roleName.Some? && roleName.value != "" then Some(ToUpper(roleName.value)) else None
  }

  /** `processRoleCreated` */
  function RoleCreated(s: State, ev: Json, env: Env): (r: Step)
    ensures r.outcome == Done
    ensures r.state.users == s.users && r.state.organizations == s.organizations
    ensures r.state.memberships == s.memberships && r.state.nextId == s.nextId
    ensures var name := RequestedRole(ev);
            if name.Some? && name.value !in s.roles then r.state.roles == s.roles[name.value := Some(CreatedRoleDescription)]
            else r.state.roles == s.roles
  {
    match Get(ev, "data")
    case None => Step(Done, s)
    case Some(data) =>
      var roleName := RoleEventName(data);
      var created :=
        if roleName.Some? && roleName.value != "" && ToUpper(roleName.value) !in s.roles
        then s.(roles := s.roles[ToUpper(roleName.value) := Some(CreatedRoleDescription)])
        else s;
      Step(Done, RoleAudit(created, data, "role.created", ev, env))
  }

  /** `processRoleUpdated`: an unknown role is created by the role.created
    * handler, audit row included, before role.updated's own audit row. */
  function RoleUpdated(s: State, ev: Json, env: Env): (r: Step)
    ensures r.outcome == Done
    ensures r.state.users == s.users && r.state.organizations == s.organizations
    ensures r.state.memberships == s.memberships && r.state.nextId == s.nextId
    ensures var name := RequestedRole(ev);
            var data := Get(ev, "data");
            if name.None? then r.state.roles == s.roles
            else if name.value !in s.roles then r.state.roles == s.roles[name.value := Some(CreatedRoleDescription)]
            else if Has(data.value, "description") then
              r.state.roles == s.roles[name.value := Some(Text(data.value, "description"))]
            else r.state.roles == s.roles
  {
    match Get(ev, "data")
    case None => Step(Done, s)
    case Some(data) =>
      var roleName := RoleEventName(data);
      var changed :=
        if roleName.Some? && roleName.value != "" then
          var name := ToUpper(roleName.value);
          if name in s.roles then
            if Has(data, "description") then s.(roles := s.roles[name := Some(Text(data, "description"))]) else s
          else RoleCreated(s, ev, env).state
        else s;
      Step(Done, RoleAudit(changed, data, "role.updated", ev, env))
  }

  /** The role a role.deleted would remove: a stored role other than ADMIN and USER. */
  function DeletableRole(s: State, data: Json): (r: Option<string>)
    ensures r.Some? ==> r.value in s.roles && r.value != "ADMIN" && r.value != "USER"
    ensures r.Some? <==> RoleEventName(data).Some? && RoleEventName(data).value != ""
                         && ToUpper(RoleEventName(data).value) in s.roles
                         && ToUpper(RoleEventName(data).value) != "ADMIN" && ToUpper(RoleEventName(data).value) != "USER"
    ensures r.Some? ==> r.value == ToUpper(RoleEventName(data).value)
  {
    var roleName := RoleEventName(data);
    if roleName.Some? && roleName.value != "" && ToUpper(roleName.value) in s.roles
       && ToUpper(roleName.value) != "ADMIN" && ToUpper(roleName.value) != "USER"
    then Some(ToUpper(roleName.value))
    else None
  }

  /** `processRoleDeleted`: ADMIN and USER are never deleted. Deleting a role
    * that memberships still use fails when the transaction commits, so the
    * step fails and nothing, not even the audit row, is kept. */
  function RoleDeleted(s: State, ev: Json, env: Env): (r: Step)
    ensures r.outcome.Failed? ==> r.state == s
    ensures r.outcome.Failed? <==> Get(ev, "data").Some? && DeletableRole(s, Get(ev, "data").value).Some?
                                   && RoleReferenced(s.memberships, DeletableRole(s, Get(ev, "data").value).value)
    ensures r.state.users == s.users && r.state.organizations == s.organizations
    ensures r.state.memberships == s.memberships && r.state.nextId == s.nextId
  {
    match Get(ev, "data")
    case None => Step(Done, s)
    case Some(data) =>
      var name := DeletableRole(s, data);
      if name.Some? && RoleReferenced(s.memberships, name.value) then Step(Failed(RoleDeletedStillReferenced), s)
      else
        var changed := if name.Some? then s.(roles := s.roles - {name.value}) else s;
        Step(Done, RoleAudit(changed, data, "role.deleted", ev, env))
  }

  /** `processPaymentAttempt` */
  function PaymentAttempt(s: State, ev: Json, env: Env): (r: Step)
    ensures r.outcome == Done
    ensures r.state == s.(userEvents := r.state.userEvents)
  {
    match Get(ev, "data")
    case None => Step(Done, s)
    case Some(data) =>
      var clerkUserId :=
        if Has(data, "user_id") then Some(Text(data, "user_id"))
        else if TextAt(data, ["user", "id"]).Some? then TextAt(data, ["user", "id"])
        else TextAt(data, ["metadata", "user_id"]);
      Step(Done, UserAudit(s, clerkUserId.GetOr(UnknownUser), "payment.attempt", ev, env))
  }

  // ------------------------------------------------------------------
  // All handlers
  // ------------------------------------------------------------------

  /** The public handlers of the webhook service. */
  datatype Handler =
    | OnUserCreated | OnUserUpdated
    | OnOrganizationCreated | OnOrganizationUpdated | OnOrganizationDeleted
    | OnMembershipCreated | OnMembershipUpdated | OnMembershipDeleted
    | OnEmailCreated | OnRoleCreated | OnRoleUpdated | OnRoleDeleted | OnPaymentAttempt

  /** The transition of one handler. */
  function Apply(h: Handler, s: State, ev: Json, env: Env): (r: Step)
    ensures r.outcome.Failed? ==> r.state == s
  {
    match h
    case OnUserCreated => UserCreated(s, ev, env)
    case OnUserUpdated => UserUpdated(s, ev, env)
    case OnOrganizationCreated => OrganizationCreated(s, ev, env)
    case OnOrganizationUpdated => OrganizationUpdated(s, ev, env)
    case OnOrganizationDeleted => OrganizationDeleted(s, ev, env)
    case OnMembershipCreated => MembershipCreated(s, ev, env)
    case OnMembershipUpdated => MembershipUpdated(s, ev, env)
    case OnMembershipDeleted => MembershipDeleted(s, ev, env)
    case OnEmailCreated => EmailCreated(s, ev, env)
    case OnRoleCreated => RoleCreated(s, ev, env)
    case OnRoleUpdated => RoleUpdated(s, ev, env)
    case OnRoleDeleted => RoleDeleted(s, ev, env)
    case OnPaymentAttempt => PaymentAttempt(s, ev, env)
  }

  /** The synchronised tables, without the two audit logs. */
  function Entities(s: State): State
  {
    s.(userEvents := [], organizationEvents := [])
  }
}
