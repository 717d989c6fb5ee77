/** What the webhook handlers guarantee: every handler keeps the database's
  * constraints, re-delivery is harmless, update handlers fall back to the
  * create handlers, deletes cascade, and audit failures never surface. */
module SyncProperties {
  import opened Common
  import opened Json
  import opened Store
  import opened Audit
  import opened MembershipRepository
  import opened SyncSpec

  // ------------------------------------------------------------------
  // Building blocks of the constraint proofs
  // ------------------------------------------------------------------

  lemma UserAuditKeepsValid(s: State, clerkUserId: string, eventType: string, ev: Json, env: Env)
    requires Valid(s)
    ensures Valid(UserAudit(s, clerkUserId, eventType, ev, env))
  {
    StoreUserEventKeepsIdsUnique(s.userEvents, clerkUserId, eventType, ev, env);
  }

  lemma OrganizationAuditKeepsValid(s: State, clerkOrgId: Option<string>, clerkUserId: Option<string>,
                                    eventType: string, ev: Json, env: Env)
    requires Valid(s)
    ensures Valid(OrganizationAudit(s, clerkOrgId, clerkUserId, eventType, ev, env))
  {
    StoreOrganizationEventKeepsIdsUnique(s.organizationEvents, clerkOrgId, clerkUserId, eventType, ev, env);
  }

  /** Adding a user with a new clerk id and the next identity keeps the constraints. */
  lemma AddUserKeepsValid(s: State, u: User)
    requires Valid(s)
    requires UserIndex(s.users, u.clerkUserId).None? && u.id == s.nextId
    ensures Valid(s.(users := s.users + [u], nextId := s.nextId + 1))
  {
    var s' := s.(users := s.users + [u], nextId := s.nextId + 1);
    AppendKeepsUnique(s.users, u, UserClerkKey);
    AppendKeepsUnique(s.users, u, UserIdKey);
    forall i | 0 <= i < |s.memberships| ensures UserIndexById(s'.users, s.memberships[i].userId).Some? {
      var j := UserIndexById(s.users, s.memberships[i].userId).value;
      assert s'.users[j].id == s.memberships[i].userId;
    }
  }

  /** Changing a user's non-key fields keeps the constraints. */
  lemma ReplaceUserKeepsValid(s: State, i: nat, u: User)
    requires Valid(s)
    requires i < |s.users| && u.id == s.users[i].id && u.clerkUserId == s.users[i].clerkUserId
    ensures Valid(s.(users := s.users[i := u]))
  {
    var s' := s.(users := s.users[i := u]);
    UpdateKeepsUnique(s.users, i, u, UserClerkKey);
    UpdateKeepsUnique(s.users, i, u, UserIdKey);
    forall k | 0 <= k < |s.memberships| ensures UserIndexById(s'.users, s.memberships[k].userId).Some? {
      var j := UserIndexById(s.users, s.memberships[k].userId).value;
      assert s'.users[j].id == s.memberships[k].userId;
    }
  }

  lemma AddOrganizationKeepsValid(s: State, o: Organization)
    requires Valid(s)
    requires OrganizationIndex(s.organizations, o.clerkOrgId).None? && o.id == s.nextId
    ensures Valid(s.(organizations := s.organizations + [o], nextId := s.nextId + 1))
  {
    var s' := s.(organizations := s.organizations + [o], nextId := s.nextId + 1);
    AppendKeepsUnique(s.organizations, o, OrganizationClerkKey);
    AppendKeepsUnique(s.organizations, o, OrganizationIdKey);
    forall i | 0 <= i < |s.memberships|
      ensures OrganizationIndexById(s'.organizations, s.memberships[i].organizationId).Some?
    {
      var j := OrganizationIndexById(s.organizations, s.memberships[i].organizationId).value;
      assert s'.organizations[j].id == s.memberships[i].organizationId;
    }
  }

  lemma ReplaceOrganizationKeepsValid(s: State, i: nat, o: Organization)
    requires Valid(s)
    requires i < |s.organizations| && o.id == s.organizations[i].id && o.clerkOrgId == s.organizations[i].clerkOrgId
    ensures Valid(s.(organizations := s.organizations[i := o]))
  {
    var s' := s.(organizations := s.organizations[i := o]);
    UpdateKeepsUnique(s.organizations, i, o, OrganizationClerkKey);
    UpdateKeepsUnique(s.organizations, i, o, OrganizationIdKey);
    forall k | 0 <= k < |s.memberships|
      ensures OrganizationIndexById(s'.organizations, s.memberships[k].organizationId).Some?
    {
      var j := OrganizationIndexById(s.organizations, s.memberships[k].organizationId).value;
      assert s'.organizations[j].id == s.memberships[k].organizationId;
    }
  }

  /** Deleting an organization together with its memberships keeps the
    * constraints: the remaining memberships still point at organizations. */
  lemma DeleteOrganizationKeepsValid(s: State, i: nat)
    requires Valid(s)
    requires i < |s.organizations|
    ensures Valid(s.(memberships := WithoutOrganization(s.memberships, s.organizations[i].id),
                     organizations := RemoveAt(s.organizations, i)))
  {
    var orgs := RemoveAt(s.organizations, i);
    RemoveKeepsUnique(s.organizations, i, OrganizationClerkKey);
    RemoveKeepsUnique(s.organizations, i, OrganizationIdKey);
    forall k | 0 <= k < |orgs| ensures orgs[k].id < s.nextId {
      if k >= i { assert orgs[k] == s.organizations[k + 1]; }
    }
    WithoutOrganizationKeepsMembershipsValid(s, i);
  }

  lemma WithoutOrganizationKeepsMembershipsValid(s: State, i: nat)
    requires Valid(s)
    requires i < |s.organizations|
    ensures MembershipsValid(s.(memberships := WithoutOrganization(s.memberships, s.organizations[i].id),
                                organizations := RemoveAt(s.organizations, i)))
  {
    var orgId := s.organizations[i].id;
    var ms := WithoutOrganization(s.memberships, orgId);
    var orgs := RemoveAt(s.organizations, i);
    FilterKeepsUnique(s.memberships, (m: Membership) => m.organizationId != orgId, MembershipClerkKey);
    FilterKeepsUnique(s.memberships, (m: Membership) => m.organizationId != orgId, MembershipPairKey);
    FilterKeepsUnique(s.memberships, (m: Membership) => m.organizationId != orgId, MembershipIdKey);
    forall k | 0 <= k < |ms|
      ensures ms[k].id < s.nextId
      ensures UserIndexById(s.users, ms[k].userId).Some?
      ensures OrganizationIndexById(orgs, ms[k].organizationId).Some?
    {
      assert ms[k] in s.memberships;
      var mi :| 0 <= mi < |s.memberships| && s.memberships[mi] == ms[k];
      OrganizationSurvives(s, i, ms[k].organizationId);
    }
  }

  lemma OrganizationSurvives(s: State, i: nat, organizationId: int)
    requires i < |s.organizations|
    requires organizationId != s.organizations[i].id
    requires OrganizationIndexById(s.organizations, organizationId).Some?
    ensures OrganizationIndexById(RemoveAt(s.organizations, i), organizationId).Some?
  {
    var orgs := RemoveAt(s.organizations, i);
    var j := OrganizationIndexById(s.organizations, organizationId).value;
    var j' := if j < i then j else j - 1;
    assert orgs[j'] == s.organizations[j];
  }

  // ------------------------------------------------------------------
  // Every handler keeps the constraints
  // ------------------------------------------------------------------

  lemma UserCreatedKeepsValid(s: State, ev: Json, env: Env)
    requires Valid(s)
    ensures Valid(UserCreated(s, ev, env).state)
  {
    var data := Get(ev, "data");
    if data.Some? && Has(data.value, "id") {
      var clerkUserId := Text(data.value, "id");
      var audited := UserAudit(s, clerkUserId, "user.created", ev, env);
      UserAuditKeepsValid(s, clerkUserId, "user.created", ev, env);
      var email := EmailOf(data.value);
      if !(email.None? || email.value == "") && UserIndex(s.users, clerkUserId).None? {
        var user := User(s.nextId, clerkUserId, email.value, FieldText(data.value, "first_name"),
                         FieldText(data.value, "last_name"), FieldText(data.value, "image_url"));
        AddUserKeepsValid(audited, user);
      }
    }
  }

  lemma UserUpdatedKeepsValid(s: State, ev: Json, env: Env)
    requires Valid(s)
    ensures Valid(UserUpdated(s, ev, env).state)
  {
    var data := Get(ev, "data");
    if data.Some? && Has(data.value, "id") {
      var clerkUserId := Text(data.value, "id");
      match UserIndex(s.users, clerkUserId)
      case None => UserCreatedKeepsValid(s, ev, env);
      case Some(i) =>
        var user := s.users[i];
        var updated := user.(firstName := Overwrite(user.firstName, data.value, "first_name"),
                             lastName := Overwrite(user.lastName, data.value, "last_name"),
                             imageUrl := Overwrite(user.imageUrl, data.value, "image_url"));
        ReplaceUserKeepsValid(s, i, updated);
        UserAuditKeepsValid(s.(users := s.users[i := updated]), clerkUserId, "user.updated", ev, env);
    }
  }

  lemma OrganizationCreatedKeepsValid(s: State, ev: Json, env: Env)
    requires Valid(s)
    ensures Valid(OrganizationCreated(s, ev, env).state)
  {
    var data := Get(ev, "data");
    if data.Some? && Has(data.value, "id") {
      var clerkOrgId := Text(data.value, "id");
      var audited := OrganizationAudit(s, Some(clerkOrgId), None, "organization.created", ev, env);
      OrganizationAuditKeepsValid(s, Some(clerkOrgId), None, "organization.created", ev, env);
      if OrganizationIndex(s.organizations, clerkOrgId).None? {
        var org := Organization(s.nextId, clerkOrgId, FieldText(data.value, "name").GetOr(UnnamedOrganization),
                                FieldText(data.value, "slug"), FieldText(data.value, "image_url"));
        AddOrganizationKeepsValid(audited, org);
      }
    }
  }

  lemma OrganizationUpdatedKeepsValid(s: State, ev: Json, env: Env)
    requires Valid(s)
    ensures Valid(OrganizationUpdated(s, ev, env).state)
  {
    var data := Get(ev, "data");
    if data.Some? && Has(data.value, "id") {
      var clerkOrgId := Text(data.value, "id");
      match OrganizationIndex(s.organizations, clerkOrgId)
      case None => OrganizationCreatedKeepsValid(s, ev, env);
      case Some(i) =>
        var org := s.organizations[i];
        var updated := org.(name := FieldText(data.value, "name").GetOr(org.name),
                            slug := Overwrite(org.slug, data.value, "slug"),
                            imageUrl := Overwrite(org.imageUrl, data.value, "image_url"));
        ReplaceOrganizationKeepsValid(s, i, updated);
        OrganizationAuditKeepsValid(s.(organizations := s.organizations[i := updated]),
                                    Some(clerkOrgId), None, "organization.updated", ev, env);
    }
  }

  lemma OrganizationDeletedKeepsValid(s: State, ev: Json, env: Env)
    requires Valid(s)
    ensures Valid(OrganizationDeleted(s, ev, env).state)
  {
    var data := Get(ev, "data");
    if data.Some? && Has(data.value, "id") {
      var clerkOrgId := Text(data.value, "id");
      var removed := OrganizationRemoved(s, clerkOrgId);
      OrganizationRemovedKeepsValid(s, clerkOrgId);
      OrganizationAuditKeepsValid(removed, Some(clerkOrgId), None, "organization.deleted", ev, env);
      assert OrganizationDeleted(s, ev, env).state ==
             OrganizationAudit(removed, Some(clerkOrgId), None, "organization.deleted", ev, env);
    }
  }

  lemma OrganizationRemovedKeepsValid(s: State, clerkOrgId: string)
    requires Valid(s)
    ensures Valid(OrganizationRemoved(s, clerkOrgId))
  {
    if OrganizationIndex(s.organizations, clerkOrgId).Some? {
      DeleteOrganizationKeepsValid(s, OrganizationIndex(s.organizations, clerkOrgId).value);
    }
  }

  /** Re-pointing the membership at index `i` to a new clerk id and role
    * keeps the constraints when no membership has that clerk id. */
  lemma RekeyMembershipKeepsValid(s: State, i: nat, role: string, clerkMembershipId: string)
    requires Valid(s)
    requires i < |s.memberships|
    requires MembershipIndex(s.memberships, clerkMembershipId).None? || s.memberships[i].clerkMembershipId == clerkMembershipId
    requires role in s.roles
    ensures Valid(s.(memberships := s.memberships[i := s.memberships[i].(roleName := role, clerkMembershipId := clerkMembershipId)]))
  {
    var m := s.memberships[i].(roleName := role, clerkMembershipId := clerkMembershipId);
    var ms := s.memberships[i := m];
    forall k | 0 <= k < |ms|
      ensures ms[k].roleName in s.roles
    {
      if k != i {
        assert ms[k] == s.memberships[k];
      }
    }
    if s.memberships[i].clerkMembershipId == clerkMembershipId {
      UpdateKeepsUnique(s.memberships, i, m, MembershipClerkKey);
    } else {
      UpdateFreshKeepsUnique(s.memberships, i, m, MembershipClerkKey);
    }
    UpdateKeepsUnique(s.memberships, i, m, MembershipPairKey);
    UpdateKeepsUnique(s.memberships, i, m, MembershipIdKey);
  }

  /** Adding a membership of an existing user in an existing organization,
    * for a pair and a clerk id that have none, keeps the constraints. */
  lemma AddMembershipKeepsValid(s: State, m: Membership)
    requires Valid(s)
    requires m.id == s.nextId
    requires MembershipIndex(s.memberships, m.clerkMembershipId).None?
    requires PairIndex(s.memberships, m.userId, m.organizationId).None?
    requires UserIndexById(s.users, m.userId).Some? && OrganizationIndexById(s.organizations, m.organizationId).Some?
    requires m.roleName in s.roles
    ensures Valid(s.(memberships := s.memberships + [m], nextId := s.nextId + 1))
  {
    var r := s.(memberships := s.memberships + [m], nextId := s.nextId + 1);
    AppendKeepsUnique(s.memberships, m, MembershipClerkKey);
    AppendKeepsUnique(s.memberships, m, MembershipPairKey);
    AppendKeepsUnique(s.memberships, m, MembershipIdKey);
    forall i | 0 <= i < |r.memberships|
      ensures r.memberships[i].id < r.nextId
      ensures UserIndexById(r.users, r.memberships[i].userId).Some?
      ensures OrganizationIndexById(r.organizations, r.memberships[i].organizationId).Some?
      ensures r.memberships[i].roleName in r.roles
    {
      if i < |s.memberships| {
        assert r.memberships[i] == s.memberships[i];
      }
    }
    assert MembershipsValid(r);
    assert UsersValid(r) && OrganizationsValid(r) && AuditValid(r);
  }

  lemma UpsertMembershipKeepsValid(s: State, userId: int, organizationId: int, role: string,
                                   clerkMembershipId: string)
    requires Valid(s)
    requires MembershipIndex(s.memberships, clerkMembershipId).None?
    requires UserIndexById(s.users, userId).Some? && OrganizationIndexById(s.organizations, organizationId).Some?
    requires role in s.roles
    ensures Valid(UpsertMembership(s, userId, organizationId, role, clerkMembershipId))
  {
    match PairIndex(s.memberships, userId, organizationId)
    case Some(i) => RekeyMembershipKeepsValid(s, i, role, clerkMembershipId);
    case None => AddMembershipKeepsValid(s, Membership(s.nextId, userId, organizationId, role, clerkMembershipId));
  }

  lemma MembershipCreatedKeepsValid(s: State, ev: Json, env: Env)
    requires Valid(s)
    ensures Valid(MembershipCreated(s, ev, env).state)
  {
    var r := MembershipCreated(s, ev, env);
    var data := Get(ev, "data");
    if r.outcome.Done? && r.state != s {
      var clerkMembershipId := Text(data.value, "id");
      var clerkOrgId := Text(data.value, "organization_id");
      var clerkUserId := TextAt(data.value, ["public_user_data", "user_id"]).value;
      var ui := UserIndex(s.users, clerkUserId).value;
      var oi := OrganizationIndex(s.organizations, clerkOrgId).value;
      var role := ResolveRole(s.roles, RoleNameOf(data.value)).value;
      assert s.users[ui].id == s.users[ui].id;
      assert s.organizations[oi].id == s.organizations[oi].id;
      UpsertMembershipKeepsValid(s, s.users[ui].id, s.organizations[oi].id, role, clerkMembershipId);
      OrganizationAuditKeepsValid(UpsertMembership(s, s.users[ui].id, s.organizations[oi].id, role, clerkMembershipId),
                                  Some(clerkOrgId), Some(clerkUserId), "organizationMembership.created", ev, env);
    }
  }

  lemma MembershipUpdatedKeepsValid(s: State, ev: Json, env: Env)
    requires Valid(s)
    ensures Valid(MembershipUpdated(s, ev, env).state)
  {
    var data := Get(ev, "data");
    if data.Some? && Has(data.value, "id") {
      var clerkMembershipId := Text(data.value, "id");
      var clerkOrgId := FieldText(data.value, "organization_id");
      var clerkUserId := MembershipUserId(data.value);
      if clerkOrgId.Some? && clerkUserId.Some? {
        match MembershipIndex(s.memberships, clerkMembershipId)
        case None => MembershipCreatedKeepsValid(s, ev, env);
        case Some(i) =>
          match ResolveRole(s.roles, RoleNameOf(data.value))
          case None =>
          case Some(role) =>
            RekeyMembershipKeepsValid(s, i, role, clerkMembershipId);
            var updated := s.memberships[i].(roleName := role, clerkMembershipId := clerkMembershipId);
            OrganizationAuditKeepsValid(s.(memberships := s.memberships[i := updated]), clerkOrgId, clerkUserId,
                                        "organizationMembership.updated", ev, env);
      }
    }
  }

  lemma MembershipDeletedKeepsValid(s: State, ev: Json, env: Env)
    requires Valid(s)
    ensures Valid(MembershipDeleted(s, ev, env).state)
  {
    var data := Get(ev, "data");
    if data.Some? && Has(data.value, "id") {
      var clerkMembershipId := Text(data.value, "id");
      var removed := MembershipRemoved(s, clerkMembershipId);
      MembershipRemovedKeepsValid(s, clerkMembershipId);
      var clerkOrgId := FieldText(data.value, "organization_id");
      var clerkUserId := TextAt(data.value, ["public_user_data", "user_id"]);
      OrganizationAuditKeepsValid(removed, clerkOrgId, clerkUserId, "organizationMembership.deleted", ev, env);
      assert MembershipDeleted(s, ev, env).state ==
             OrganizationAudit(removed, clerkOrgId, clerkUserId, "organizationMembership.deleted", ev, env);
    }
  }

  lemma MembershipRemovedKeepsValid(s: State, clerkMembershipId: string)
    requires Valid(s)
    ensures Valid(MembershipRemoved(s, clerkMembershipId))
  {
    if MembershipIndex(s.memberships, clerkMembershipId).Some? {
      RemoveMembershipKeepsValid(s, MembershipIndex(s.memberships, clerkMembershipId).value);
    }
  }

  lemma RemoveMembershipKeepsValid(s: State, i: nat)
    requires Valid(s)
    requires i < |s.memberships|
    ensures Valid(s.(memberships := RemoveAt(s.memberships, i)))
  {
    var removed := RemoveAt(s.memberships, i);
    RemoveKeepsUnique(s.memberships, i, MembershipClerkKey);
    RemoveKeepsUnique(s.memberships, i, MembershipPairKey);
    RemoveKeepsUnique(s.memberships, i, MembershipIdKey);
    forall k | 0 <= k < |removed|
      ensures removed[k].id < s.nextId
      ensures UserIndexById(s.users, removed[k].userId).Some?
      ensures OrganizationIndexById(s.organizations, removed[k].organizationId).Some?
    {
      var k' := if k < i then k else k + 1;
      assert removed[k] == s.memberships[k'];
    }
  }

  lemma RoleAuditKeepsValid(s: State, data: Json, eventType: string, ev: Json, env: Env)
    requires Valid(s)
    ensures Valid(RoleAudit(s, data, eventType, ev, env))
  {
    var clerkOrgId := RoleEventOrganizationId(data);
    var clerkUserId := RoleEventUserId(data);
    if clerkOrgId.Some? {
      OrganizationAuditKeepsValid(s, clerkOrgId, clerkUserId, eventType, ev, env);
    } else {
      UserAuditKeepsValid(s, clerkUserId.GetOr(UnknownUser), eventType, ev, env);
    }
  }

  lemma RoleCreatedKeepsValid(s: State, ev: Json, env: Env)
    requires Valid(s)
    ensures Valid(RoleCreated(s, ev, env).state)
  {
    if Get(ev, "data").Some? {
      var data := Get(ev, "data").value;
      var roleName := RoleEventName(data);
      var created :=
        if roleName.Some? && roleName.value != "" && ToUpper(roleName.value) !in s.roles
        then s.(roles := s.roles[ToUpper(roleName.value) := Some(CreatedRoleDescription)])
        else s;
      RoleAuditKeepsValid(created, data, "role.created", ev, env);
    }
  }

  lemma RoleUpdatedKeepsValid(s: State, ev: Json, env: Env)
    requires Valid(s)
    ensures Valid(RoleUpdated(s, ev, env).state)
  {
    if Get(ev, "data").Some? {
      var data := Get(ev, "data").value;
      var roleName := RoleEventName(data);
      var changed :=
        if roleName.Some? && roleName.value != "" then
          var name := ToUpper(roleName.value);
          if name in s.roles then
            if Has(data, "description") then s.(roles := s.roles[name := Some(Text(data, "description"))]) else s
          else RoleCreated(s, ev, env).state
        else s;
      RoleCreatedKeepsValid(s, ev, env);
      RoleAuditKeepsValid(changed, data, "role.updated", ev, env);
    }
  }

  lemma RoleDeletedKeepsValid(s: State, ev: Json, env: Env)
    requires Valid(s)
    ensures Valid(RoleDeleted(s, ev, env).state)
  {
    if Get(ev, "data").Some? {
      var data := Get(ev, "data").value;
      var name := DeletableRole(s, data);
      if !(name.Some? && RoleReferenced(s.memberships, name.value)) {
        var changed := if name.Some? then s.(roles := s.roles - {name.value}) else s;
        RoleAuditKeepsValid(changed, data, "role.deleted", ev, env);
      }
    }
  }

  lemma InformationalEventsKeepValid(s: State, ev: Json, env: Env)
    requires Valid(s)
    ensures Valid(EmailCreated(s, ev, env).state)
    ensures Valid(PaymentAttempt(s, ev, env).state)
  {
    if Get(ev, "data").Some? {
      var data := Get(ev, "data").value;
      var emailUser := if Has(data, "user_id") then Some(Text(data, "user_id")) else TextAt(data, ["user", "id"]);
      UserAuditKeepsValid(s, emailUser.GetOr(UnknownUser), "email.created", ev, env);
      var payer :=
        if Has(data, "user_id") then Some(Text(data, "user_id"))
        else if TextAt(data, ["user", "id"]).Some? then TextAt(data, ["user", "id"])
        else TextAt(data, ["metadata", "user_id"]);
      UserAuditKeepsValid(s, payer.GetOr(UnknownUser), "payment.attempt", ev, env);
    }
  }

  /** Every handler keeps the database constraints. */
  lemma ApplyKeepsValid(h: Handler, s: State, ev: Json, env: Env)
    requires Valid(s)
    ensures Valid(Apply(h, s, ev, env).state)
  {
    if UserOrOrganizationHandler(h) {
      UserAndOrganizationHandlersKeepValid(h, s, ev, env);
    } else if MembershipHandler(h) {
      MembershipHandlersKeepValid(h, s, ev, env);
    } else {
      OtherHandlersKeepValid(h, s, ev, env);
    }
  }

  predicate UserOrOrganizationHandler(h: Handler)
  {
    h.OnUserCreated? || h.OnUserUpdated? || h.OnOrganizationCreated? || h.OnOrganizationUpdated? || h.OnOrganizationDeleted?
  }

  predicate MembershipHandler(h: Handler)
  {
    h.OnMembershipCreated? || h.OnMembershipUpdated? || h.OnMembershipDeleted?
  }

  lemma UserAndOrganizationHandlersKeepValid(h: Handler, s: State, ev: Json, env: Env)
    requires Valid(s) && UserOrOrganizationHandler(h)
    ensures Valid(Apply(h, s, ev, env).state)
  {
    match h
    case OnUserCreated => UserCreatedKeepsValid(s, ev, env);
    case OnUserUpdated => UserUpdatedKeepsValid(s, ev, env);
    case OnOrganizationCreated => OrganizationCreatedKeepsValid(s, ev, env);
    case OnOrganizationUpdated => OrganizationUpdatedKeepsValid(s, ev, env);
    case OnOrganizationDeleted => OrganizationDeletedKeepsValid(s, ev, env);
  }

  lemma MembershipHandlersKeepValid(h: Handler, s: State, ev: Json, env: Env)
    requires Valid(s) && MembershipHandler(h)
    ensures Valid(Apply(h, s, ev, env).state)
  {
    match h
    case OnMembershipCreated => MembershipCreatedKeepsValid(s, ev, env);
    case OnMembershipUpdated => MembershipUpdatedKeepsValid(s, ev, env);
    case OnMembershipDeleted => MembershipDeletedKeepsValid(s, ev, env);
  }

  lemma OtherHandlersKeepValid(h: Handler, s: State, ev: Json, env: Env)
    requires Valid(s) && !UserOrOrganizationHandler(h) && !MembershipHandler(h)
    ensures Valid(Apply(h, s, ev, env).state)
  {
    match h
    case OnEmailCreated => InformationalEventsKeepValid(s, ev, env);
    case OnRoleCreated => RoleCreatedKeepsValid(s, ev, env);
    case OnRoleUpdated => RoleUpdatedKeepsValid(s, ev, env);
    case OnRoleDeleted => RoleDeletedKeepsValid(s, ev, env);
    case OnPaymentAttempt => InformationalEventsKeepValid(s, ev, env);
  }

  /** Audit writes never decide anything: neither the clock nor a failing
    * audit store changes a handler's outcome or the synchronised tables.
    * This holds with transactions left out; a rollback-only commit is not
    * modelled. */
  lemma AuditNeverDecides(h: Handler, s: State, ev: Json, env1: Env, env2: Env)
    ensures Apply(h, s, ev, env1).outcome == Apply(h, s, ev, env2).outcome
    ensures Entities(Apply(h, s, ev, env1).state) == Entities(Apply(h, s, ev, env2).state)
  {
    if UserOrOrganizationHandler(h) {
      UserAndOrganizationAuditNeverDecides(h, s, ev, env1, env2);
    } else if MembershipHandler(h) {
      MembershipAuditNeverDecides(h, s, ev, env1, env2);
    } else {
      OtherAuditNeverDecides(h, s, ev, env1, env2);
    }
  }

  lemma UserAndOrganizationAuditNeverDecides(h: Handler, s: State, ev: Json, env1: Env, env2: Env)
    requires UserOrOrganizationHandler(h)
    ensures Apply(h, s, ev, env1).outcome == Apply(h, s, ev, env2).outcome
    ensures Entities(Apply(h, s, ev, env1).state) == Entities(Apply(h, s, ev, env2).state)
  {
  }

  lemma MembershipAuditNeverDecides(h: Handler, s: State, ev: Json, env1: Env, env2: Env)
    requires MembershipHandler(h)
    ensures Apply(h, s, ev, env1).outcome == Apply(h, s, ev, env2).outcome
    ensures Entities(Apply(h, s, ev, env1).state) == Entities(Apply(h, s, ev, env2).state)
  {
  }

  lemma OtherAuditNeverDecides(h: Handler, s: State, ev: Json, env1: Env, env2: Env)
    requires !UserOrOrganizationHandler(h) && !MembershipHandler(h)
    ensures Apply(h, s, ev, env1).outcome == Apply(h, s, ev, env2).outcome
    ensures Entities(Apply(h, s, ev, env1).state) == Entities(Apply(h, s, ev, env2).state)
  {
  }

  // ------------------------------------------------------------------
  // Redelivery
  // ------------------------------------------------------------------

  /** A user.created delivered twice creates the user once; with a stable
    * event id and a working audit store the second delivery changes nothing. */
  lemma UserCreatedTwice(s: State, ev: Json, env1: Env, env2: Env)
    ensures var once := UserCreated(s, ev, env1).state;
            var twice := UserCreated(once, ev, env2);
            twice.outcome == UserCreated(s, ev, env1).outcome
            && Entities(twice.state) == Entities(once)
            && (StableEventId(ev) && env1.auditStoreUp ==> twice.state == once)
  {
    var first := UserCreated(s, ev, env1);
    var data := Get(ev, "data");
    if data.Some? && Has(data.value, "id") {
      var clerkUserId := Text(data.value, "id");
      var email := EmailOf(data.value);
      if !(email.None? || email.value == "") && UserIndex(s.users, clerkUserId).None? {
        assert first.state.users[|s.users|].clerkUserId == clerkUserId;
      }
      if StableEventId(ev) && env1.auditStoreUp {
        StoreUserEventRecordsId(s.userEvents, clerkUserId, "user.created", ev, env1);
        StableEventIdIgnoresClock(ev, env1.nowMillis, env2.nowMillis);
      }
    }
  }

  /** The same for organization.created. */
  lemma OrganizationCreatedTwice(s: State, ev: Json, env1: Env, env2: Env)
    ensures var once := OrganizationCreated(s, ev, env1).state;
            var twice := OrganizationCreated(once, ev, env2);
            twice.outcome == OrganizationCreated(s, ev, env1).outcome
            && Entities(twice.state) == Entities(once)
            && (StableEventId(ev) && env1.auditStoreUp ==> twice.state == once)
  {
    var first := OrganizationCreated(s, ev, env1);
    var data := Get(ev, "data");
    if data.Some? && Has(data.value, "id") {
      var clerkOrgId := Text(data.value, "id");
      if OrganizationIndex(s.organizations, clerkOrgId).None? {
        assert first.state.organizations[|s.organizations|].clerkOrgId == clerkOrgId;
      }
      if StableEventId(ev) && env1.auditStoreUp {
        StoreOrganizationEventRecordsId(s.organizationEvents, Some(clerkOrgId), None, "organization.created", ev, env1);
        StableEventIdIgnoresClock(ev, env1.nowMillis, env2.nowMillis);
      }
    }
  }

  /** After a successful organizationMembership.created, delivering it again
    * is a no-op: the membership's clerk id is now known. */
  lemma MembershipCreatedTwice(s: State, ev: Json, env1: Env, env2: Env)
    requires MembershipCreated(s, ev, env1).outcome.Done?
    ensures var once := MembershipCreated(s, ev, env1).state;
            MembershipCreated(once, ev, env2) == Step(Done, once)
  {
    var once := MembershipCreated(s, ev, env1).state;
    var data := Get(ev, "data").value;
    var clerkMembershipId := Text(data, "id");
    if MembershipIndex(s.memberships, clerkMembershipId).None? {
      var clerkOrgId := Text(data, "organization_id");
      var clerkUserId := TextAt(data, ["public_user_data", "user_id"]).value;
      var user := s.users[UserIndex(s.users, clerkUserId).value];
      var org := s.organizations[OrganizationIndex(s.organizations, clerkOrgId).value];
      var role := ResolveRole(s.roles, RoleNameOf(data)).value;
      UpsertRecordsClerkId(s, user.id, org.id, role, clerkMembershipId);
    }
  }

  // ------------------------------------------------------------------
  // Memberships
  // ------------------------------------------------------------------

  /** After the upsert the membership carries the clerk id. */
  lemma UpsertRecordsClerkId(s: State, userId: int, organizationId: int, role: string, clerkMembershipId: string)
    ensures MembershipIndex(UpsertMembership(s, userId, organizationId, role, clerkMembershipId).memberships,
                            clerkMembershipId).Some?
  {
    var r := UpsertMembership(s, userId, organizationId, role, clerkMembershipId);
    match PairIndex(s.memberships, userId, organizationId)
    case Some(i) => assert r.memberships[i].clerkMembershipId == clerkMembershipId;
    case None => assert r.memberships[|s.memberships|].clerkMembershipId == clerkMembershipId;
  }

  /** The upsert leaves exactly one membership for the pair, holding the role
    * and the clerk id, and keeps every membership of other pairs. */
  lemma UpsertSetsPair(s: State, userId: int, organizationId: int, role: string, clerkMembershipId: string)
    requires Valid(s)
    ensures var ms := UpsertMembership(s, userId, organizationId, role, clerkMembershipId).memberships;
            (exists k :: 0 <= k < |ms| && ms[k].userId == userId && ms[k].organizationId == organizationId)
            && (forall k :: 0 <= k < |ms| && ms[k].userId == userId && ms[k].organizationId == organizationId ==>
                  ms[k].roleName == role && ms[k].clerkMembershipId == clerkMembershipId)
            && (forall k :: 0 <= k < |s.memberships| && MembershipPairKey(s.memberships[k]) != (userId, organizationId) ==>
                  s.memberships[k] in ms)
  {
    var ms := UpsertMembership(s, userId, organizationId, role, clerkMembershipId).memberships;
    match PairIndex(s.memberships, userId, organizationId)
    case Some(i) =>
      assert ms[i].userId == userId && ms[i].organizationId == organizationId;
      forall k | 0 <= k < |ms| && ms[k].userId == userId && ms[k].organizationId == organizationId
        ensures ms[k].roleName == role && ms[k].clerkMembershipId == clerkMembershipId
      {
      }
      forall k | 0 <= k < |s.memberships| && MembershipPairKey(s.memberships[k]) != (userId, organizationId)
        ensures s.memberships[k] in ms
      {
        assert ms[k] == s.memberships[k];
      }
    case None =>
      assert ms[|s.memberships|].userId == userId;
      forall k | 0 <= k < |s.memberships| && MembershipPairKey(s.memberships[k]) != (userId, organizationId)
        ensures s.memberships[k] in ms
      {
        assert ms[k] == s.memberships[k];
      }
  }

  /** A membership.deleted removes the membership with its clerk id and only
    * that one; an unknown id leaves the memberships as they are. */
  lemma MembershipDeletedRemovesIt(s: State, ev: Json, env: Env)
    requires Valid(s)
    requires Get(ev, "data").Some? && Has(Get(ev, "data").value, "id")
    ensures var id := Text(Get(ev, "data").value, "id");
            var ms := MembershipDeleted(s, ev, env).state.memberships;
            MembershipIndex(ms, id).None?
            && (forall m :: m in s.memberships && m.clerkMembershipId != id ==> m in ms)
            && (forall m :: m in ms ==> m in s.memberships)
  {
    var id := Text(Get(ev, "data").value, "id");
    assert MembershipDeleted(s, ev, env).state.memberships == MembershipRemoved(s, id).memberships;
    MembershipRemovedRemovesIt(s, id);
  }

  lemma MembershipRemovedRemovesIt(s: State, id: string)
    requires UniqueBy(s.memberships, MembershipClerkKey)
    ensures var ms := MembershipRemoved(s, id).memberships;
            MembershipIndex(ms, id).None?
            && (forall m :: m in s.memberships && m.clerkMembershipId != id ==> m in ms)
            && (forall m :: m in ms ==> m in s.memberships)
  {
    match MembershipIndex(s.memberships, id)
    case None =>
    case Some(i) => RemoveAtUniqueRows(s.memberships, i, MembershipClerkKey);
  }

  /** A new membership gets the role the payload asks for (see `RoleNameOf`),
    * resolved against the role table, for the user and organization it names;
    * a clerk membership id already stored makes the event a no-op. */
  lemma MembershipCreatedGrantsRequestedRole(s: State, ev: Json, env: Env)
    requires Valid(s)
    requires MembershipCreated(s, ev, env).outcome.Done?
    ensures Get(ev, "data").Some? && Has(Get(ev, "data").value, "id")
    ensures var data := Get(ev, "data").value;
            var id := Text(data, "id");
            var r := MembershipCreated(s, ev, env).state;
            MembershipIndex(s.memberships, id).Some? ==> r == s
    ensures var data := Get(ev, "data").value;
            var id := Text(data, "id");
            var ms := MembershipCreated(s, ev, env).state.memberships;
            MembershipIndex(s.memberships, id).None? ==>
              UserIndex(s.users, TextAt(data, ["public_user_data", "user_id"]).value).Some?
              && OrganizationIndex(s.organizations, Text(data, "organization_id")).Some?
              && ResolveRole(s.roles, RoleNameOf(data)).Some?
              && var user := s.users[UserIndex(s.users, TextAt(data, ["public_user_data", "user_id"]).value).value];
                 var org := s.organizations[OrganizationIndex(s.organizations, Text(data, "organization_id")).value];
                 exists k :: 0 <= k < |ms| && ms[k].clerkMembershipId == id && ms[k].userId == user.id
                              && ms[k].organizationId == org.id
                              && ms[k].roleName == ResolveRole(s.roles, RoleNameOf(data)).value
  {
    var data := Get(ev, "data").value;
    var id := Text(data, "id");
    if MembershipIndex(s.memberships, id).None? {
      var user := s.users[UserIndex(s.users, TextAt(data, ["public_user_data", "user_id"]).value).value];
      var org := s.organizations[OrganizationIndex(s.organizations, Text(data, "organization_id")).value];
      var role := ResolveRole(s.roles, RoleNameOf(data)).value;
      var upserted := UpsertMembership(s, user.id, org.id, role, id);
      assert MembershipCreated(s, ev, env).state.memberships == upserted.memberships;
      UpsertSetsPair(s, user.id, org.id, role, id);
    }
  }

  /** A membership.updated for a stored membership changes only that row's
    * role, to the role the payload asks for, resolved against the role table. */
  lemma MembershipUpdatedSetsRequestedRole(s: State, ev: Json, env: Env)
    requires Get(ev, "data").Some? && Has(Get(ev, "data").value, "id")
    requires MembershipIndex(s.memberships, Text(Get(ev, "data").value, "id")).Some?
    requires MembershipUpdated(s, ev, env).outcome.Done?
    ensures var data := Get(ev, "data").value;
            var i := MembershipIndex(s.memberships, Text(data, "id")).value;
            var ms := MembershipUpdated(s, ev, env).state.memberships;
            ResolveRole(s.roles, RoleNameOf(data)).Some?
            && ms == s.memberships[i := s.memberships[i].(roleName := ResolveRole(s.roles, RoleNameOf(data)).value)]
  {
  }

  // ------------------------------------------------------------------
  // Users
  // ------------------------------------------------------------------

  /** user.created succeeds exactly when the payload has `data.id`; it adds a
    * user exactly when, besides, an email was found that is not empty and no
    * user has that clerk id yet, and the new row carries the next id, the
    * clerk id, the email and the profile fields of the payload. */
  lemma UserCreatedAddsIff(s: State, ev: Json, env: Env)
    ensures var data := Get(ev, "data");
            UserCreated(s, ev, env).outcome.Done? <==> data.Some? && Has(data.value, "id")
    ensures var data := Get(ev, "data");
            var r := UserCreated(s, ev, env).state;
            var adds := data.Some? && Has(data.value, "id") && EmailOf(data.value).Some? && EmailOf(data.value).value != ""
                        && UserIndex(s.users, Text(data.value, "id")).None?;
            (adds <==> |r.users| == |s.users| + 1)
            && (!adds ==> r.users == s.users && r.nextId == s.nextId)
            && (adds ==> r.nextId == s.nextId + 1
                         && r.users == s.users + [User(s.nextId, Text(data.value, "id"), EmailOf(data.value).value,
                                                       FieldText(data.value, "first_name"),
                                                       FieldText(data.value, "last_name"),
                                                       FieldText(data.value, "image_url"))])
  {
  }

  // ------------------------------------------------------------------
  // Organizations
  // ------------------------------------------------------------------

  /** organization.deleted removes the organization and every membership in
    * it and keeps the rest; an unknown organization only gets an audit row. */
  lemma OrganizationDeletedCascades(s: State, ev: Json, env: Env)
    requires Valid(s)
    requires Get(ev, "data").Some? && Has(Get(ev, "data").value, "id")
    ensures var clerkOrgId := Text(Get(ev, "data").value, "id");
            var r := OrganizationDeleted(s, ev, env).state;
            match OrganizationIndex(s.organizations, clerkOrgId)
            case None => Entities(r) == Entities(s)
            case Some(i) =>
              OrganizationIndex(r.organizations, clerkOrgId).None?
              && (forall m :: m in r.memberships <==> m in s.memberships && m.organizationId != s.organizations[i].id)
              && (forall o :: o in r.organizations <==> o in s.organizations && o.clerkOrgId != clerkOrgId)
    ensures OrganizationDeleted(s, ev, env).outcome == Done
    ensures StableEventId(ev) && env.auditStoreUp ==>
              HasOrganizationEventId(OrganizationDeleted(s, ev, env).state.organizationEvents, EventId(ev, env.nowMillis).value)
  {
    var clerkOrgId := Text(Get(ev, "data").value, "id");
    var r := OrganizationDeleted(s, ev, env).state;
    assert Entities(r) == Entities(OrganizationRemoved(s, clerkOrgId));
    if StableEventId(ev) && env.auditStoreUp {
      StoreOrganizationEventRecordsId(OrganizationRemoved(s, clerkOrgId).organizationEvents, Some(clerkOrgId), None,
                                      "organization.deleted", ev, env);
    }
    match OrganizationIndex(s.organizations, clerkOrgId)
    case None =>
    case Some(i) => RemoveAtUniqueRows(s.organizations, i, OrganizationClerkKey);
  }

  // ------------------------------------------------------------------
  // Roles
  // ------------------------------------------------------------------

  /** role.deleted never removes ADMIN or USER, never a role a membership
    * still uses, and nothing but the role it names. */
  lemma RoleDeletedKeepsBuiltins(s: State, ev: Json, env: Env)
    ensures var roles := RoleDeleted(s, ev, env).state.roles;
            ("ADMIN" in s.roles ==> "ADMIN" in roles) && ("USER" in s.roles ==> "USER" in roles)
            && roles.Keys <= s.roles.Keys
            && (forall m :: m in s.memberships && m.roleName in s.roles ==> m.roleName in roles)
            && (forall name :: name in s.roles && name !in roles ==>
                  RoleEventName(Get(ev, "data").value).Some? && name == ToUpper(RoleEventName(Get(ev, "data").value).value))
  {
  }

  /** role.created and role.updated never remove a role; a created role has
    * the upper-cased name. */
  lemma RoleCreatedAddsUpperCased(s: State, ev: Json, env: Env)
    ensures var roles := RoleCreated(s, ev, env).state.roles;
            s.roles.Keys <= roles.Keys
            && (forall name :: name in roles && name !in s.roles ==> name == ToUpper(name))
    ensures var roles := RoleCreated(s, ev, env).state.roles;
            var data := Get(ev, "data");
            data.Some? && RoleEventName(data.value).Some? && RoleEventName(data.value).value != "" ==>
              var name := ToUpper(RoleEventName(data.value).value);
              name in roles && (name !in s.roles ==> roles[name] == Some(CreatedRoleDescription))
  {
    var roles := RoleCreated(s, ev, env).state.roles;
    forall name | name in roles && name !in s.roles
      ensures name == ToUpper(name)
    {
      var data := Get(ev, "data").value;
      ToUpperIdempotent(RoleEventName(data).value);
    }
  }

  // ------------------------------------------------------------------
  // Updates fall back to creation
  // ------------------------------------------------------------------

  /** An update for an entity the database does not know behaves exactly as
    * the matching created event. */
  lemma UpdatesOfUnknownEntitiesCreate(s: State, ev: Json, env: Env)
    requires Get(ev, "data").Some? && Has(Get(ev, "data").value, "id")
    ensures var id := Text(Get(ev, "data").value, "id");
            (UserIndex(s.users, id).None? ==> UserUpdated(s, ev, env) == UserCreated(s, ev, env))
            && (OrganizationIndex(s.organizations, id).None? ==>
                  OrganizationUpdated(s, ev, env) == OrganizationCreated(s, ev, env))
            && (MembershipIndex(s.memberships, id).None? && FieldText(Get(ev, "data").value, "organization_id").Some?
                && MembershipUserId(Get(ev, "data").value).Some? ==>
                  MembershipUpdated(s, ev, env).state == MembershipCreated(s, ev, env).state
                  && (MembershipUpdated(s, ev, env).outcome.Done? <==> MembershipCreated(s, ev, env).outcome.Done?))
  {
  }

  /** A user.updated for a known user changes only the profile fields the
    * payload carries: id, clerk id and email stay. */
  lemma UserUpdatedKeepsIdentity(s: State, ev: Json, env: Env)
    requires Get(ev, "data").Some? && Has(Get(ev, "data").value, "id")
    requires UserIndex(s.users, Text(Get(ev, "data").value, "id")).Some?
    ensures var data := Get(ev, "data").value;
            var i := UserIndex(s.users, Text(data, "id")).value;
            var r := UserUpdated(s, ev, env).state;
            |r.users| == |s.users| && r.nextId == s.nextId
            && (forall k :: 0 <= k < |s.users| && k != i ==> r.users[k] == s.users[k])
            && r.users[i].id == s.users[i].id && r.users[i].clerkUserId == s.users[i].clerkUserId
            && r.users[i].email == s.users[i].email
            && r.users[i].firstName == Overwrite(s.users[i].firstName, data, "first_name")
            && r.users[i].lastName == Overwrite(s.users[i].lastName, data, "last_name")
            && r.users[i].imageUrl == Overwrite(s.users[i].imageUrl, data, "image_url")
            && (!Has(data, "first_name") && !Has(data, "last_name") && !Has(data, "image_url") ==>
                  r.users == s.users)
  {
  }

  /** An organization.updated for a known organization rewrites the name
    * only when the payload carries one, and slug and image by `Overwrite`;
    * id and clerk org id stay, and no other row changes. */
  lemma OrganizationUpdatedKeepsIdentity(s: State, ev: Json, env: Env)
    requires Get(ev, "data").Some? && Has(Get(ev, "data").value, "id")
    requires OrganizationIndex(s.organizations, Text(Get(ev, "data").value, "id")).Some?
    ensures var data := Get(ev, "data").value;
            var i := OrganizationIndex(s.organizations, Text(data, "id")).value;
            var r := OrganizationUpdated(s, ev, env);
            var o := s.organizations[i];
            r.outcome == Done && |r.state.organizations| == |s.organizations| && r.state.nextId == s.nextId
            && (forall k :: 0 <= k < |s.organizations| && k != i ==> r.state.organizations[k] == s.organizations[k])
            && r.state.organizations[i].id == o.id && r.state.organizations[i].clerkOrgId == o.clerkOrgId
            && r.state.organizations[i].name == FieldText(data, "name").GetOr(o.name)
            && r.state.organizations[i].slug == Overwrite(o.slug, data, "slug")
            && r.state.organizations[i].imageUrl == Overwrite(o.imageUrl, data, "image_url")
  {
  }
}
