/** Properties of the legacy webhook service, and where it parts ways with
  * the current one. */
module LegacySyncProperties {
  import opened Common
  import opened Json
  import opened Store
  import opened Audit
  import opened MembershipRepository
  import Current = SyncSpec
  import CurrentProperties = SyncProperties
  import opened LegacySyncSpec

  // ------------------------------------------------------------------
  // Audit
  // ------------------------------------------------------------------

  lemma StoreUserEventKeepsIdsUnique(log: seq<UserEvent>, clerkUserId: string, eventType: string, ev: Json, env: Env)
    requires UniqueUserEventIds(log)
    ensures UniqueUserEventIds(LegacySyncSpec.StoreUserEvent(log, clerkUserId, eventType, ev, env))
  {
    var r := LegacySyncSpec.StoreUserEvent(log, clerkUserId, eventType, ev, env);
    if r != log {
      forall i, j | 0 <= i < |r| && 0 <= j < |r| && r[i].clerkEventId.Some? && r[i].clerkEventId == r[j].clerkEventId
        ensures i == j
      {
      }
    }
  }

  lemma StoreOrganizationEventKeepsIdsUnique(log: seq<OrganizationEvent>, clerkOrgId: Option<string>,
                                             clerkUserId: Option<string>, eventType: string, ev: Json, env: Env)
    requires UniqueOrganizationEventIds(log)
    ensures UniqueOrganizationEventIds(LegacySyncSpec.StoreOrganizationEvent(log, clerkOrgId, clerkUserId, eventType, ev, env))
  {
    var r := LegacySyncSpec.StoreOrganizationEvent(log, clerkOrgId, clerkUserId, eventType, ev, env);
    if r != log {
      forall i, j | 0 <= i < |r| && 0 <= j < |r| && r[i].clerkEventId.Some? && r[i].clerkEventId == r[j].clerkEventId
        ensures i == j
      {
      }
    }
  }

  /** An event with a top-level id is recorded at most once, whatever the
    * other fields of the later delivery say. */
  lemma StoreUserEventTwiceWritesOnce(log: seq<UserEvent>, clerkUserId: string, eventType: string, ev: Json,
                                      env1: Env, env2: Env)
    requires Has(ev, "id")
    ensures var once := LegacySyncSpec.StoreUserEvent(log, clerkUserId, eventType, ev, env1);
            once != log ==> LegacySyncSpec.StoreUserEvent(once, clerkUserId, eventType, ev, env2) == once
  {
    var once := LegacySyncSpec.StoreUserEvent(log, clerkUserId, eventType, ev, env1);
    if once != log {
      assert once[|log|].clerkEventId == Some(Text(ev, "id"));
    }
  }

  lemma StoreOrganizationEventTwiceWritesOnce(log: seq<OrganizationEvent>, clerkOrgId: Option<string>,
                                              clerkUserId: Option<string>, eventType: string, ev: Json,
                                              env1: Env, env2: Env)
    requires Has(ev, "id")
    ensures var once := LegacySyncSpec.StoreOrganizationEvent(log, clerkOrgId, clerkUserId, eventType, ev, env1);
            once != log ==> LegacySyncSpec.StoreOrganizationEvent(once, clerkOrgId, clerkUserId, eventType, ev, env2) == once
  {
    var once := LegacySyncSpec.StoreOrganizationEvent(log, clerkOrgId, clerkUserId, eventType, ev, env1);
    if once != log {
      assert once[|log|].clerkEventId == Some(Text(ev, "id"));
    }
  }

  // ------------------------------------------------------------------
  // Constraints
  // ------------------------------------------------------------------

  lemma UserAuditKeepsValid(s: State, clerkUserId: string, eventType: string, ev: Json, env: Env)
    requires Valid(s)
    ensures Valid(LegacySyncSpec.UserAudit(s, clerkUserId, eventType, ev, env))
  {
    StoreUserEventKeepsIdsUnique(s.userEvents, clerkUserId, eventType, ev, env);
  }

  lemma OrganizationAuditKeepsValid(s: State, clerkOrgId: Option<string>, clerkUserId: Option<string>,
                                    eventType: string, ev: Json, env: Env)
    requires Valid(s)
    ensures Valid(LegacySyncSpec.OrganizationAudit(s, clerkOrgId, clerkUserId, eventType, ev, env))
  {
    StoreOrganizationEventKeepsIdsUnique(s.organizationEvents, clerkOrgId, clerkUserId, eventType, ev, env);
  }

  /** Every legacy handler keeps the database constraints, in particular at
    * most one membership per (user, organization). */
  lemma ApplyKeepsValid(h: Handler, s: State, ev: Json, env: Env)
    requires Valid(s)
    ensures Valid(Apply(h, s, ev, env).state)
  {
    match h
    case OnUserCreated => UserCreatedKeepsValid(s, ev, env);
    case OnUserUpdated => UserUpdatedKeepsValid(s, ev, env);
    case OnOrganizationCreated => OrganizationCreatedKeepsValid(s, ev, env);
    case OnMembershipCreated => MembershipCreatedKeepsValid(s, ev, env);
    case OnMembershipDeleted => MembershipDeletedKeepsValid(s, ev, env);
  }

  lemma UserUpdatedKeepsValid(s: State, ev: Json, env: Env)
    requires Valid(s)
    ensures Valid(UserUpdated(s, ev, env).state)
  {
    var data := Get(ev, "data");
    if data.Some? && Has(data.value, "id") {
      var clerkUserId := Text(data.value, "id");
      match UserIndex(s.users, clerkUserId)
      case None => UserCreatedKeepsValid(s, ev, env);
      case Some(i) =>
        var user := s.users[i];
        var updated := user.(firstName := Current.Overwrite(user.firstName, data.value, "first_name"),
                             lastName := Current.Overwrite(user.lastName, data.value, "last_name"),
                             imageUrl := Current.Overwrite(user.imageUrl, data.value, "image_url"));
        CurrentProperties.ReplaceUserKeepsValid(s, i, updated);
        UserAuditKeepsValid(s.(users := s.users[i := updated]), clerkUserId, "user.updated", ev, env);
    }
  }

  lemma OrganizationCreatedKeepsValid(s: State, ev: Json, env: Env)
    requires Valid(s)
    ensures Valid(OrganizationCreated(s, ev, env).state)
  {
    var data := Get(ev, "data");
    if data.Some? && Has(data.value, "id") {
      var clerkOrgId := Text(data.value, "id");
      if OrganizationIndex(s.organizations, clerkOrgId).None? {
        var org := Organization(s.nextId, clerkOrgId,
                                Current.FieldText(data.value, "name").GetOr(Current.UnnamedOrganization),
                                Current.FieldText(data.value, "slug"), Current.FieldText(data.value, "image_url"));
        CurrentProperties.AddOrganizationKeepsValid(s, org);
        OrganizationAuditKeepsValid(s.(organizations := s.organizations + [org], nextId := s.nextId + 1),
                                    Some(clerkOrgId), None, "organization.created", ev, env);
      }
    }
  }

  lemma MembershipCreatedKeepsValid(s: State, ev: Json, env: Env)
    requires Valid(s)
    ensures Valid(MembershipCreated(s, ev, env).state)
  {
    var data := Get(ev, "data");
    var r := MembershipCreated(s, ev, env);
    if r.outcome.Done? && r.state != s {
      var clerkMembershipId := Text(data.value, "id");
      var clerkOrgId := Text(data.value, "organization_id");
      var clerkUserId := TextAt(data.value, ["public_user_data", "user_id"]).value;
      var ui := UserIndex(s.users, clerkUserId).value;
      var oi := OrganizationIndex(s.organizations, clerkOrgId).value;
      var role := Current.ResolveRole(s.roles, LegacySyncSpec.RoleNameOf(data.value)).value;
      assert s.users[ui].id == s.users[ui].id;
      assert s.organizations[oi].id == s.organizations[oi].id;
      CurrentProperties.UpsertMembershipKeepsValid(s, s.users[ui].id, s.organizations[oi].id, role, clerkMembershipId);
      OrganizationAuditKeepsValid(Current.UpsertMembership(s, s.users[ui].id, s.organizations[oi].id, role,
                                                           clerkMembershipId),
                                  Some(clerkOrgId), Some(clerkUserId), "organizationMembership.created", ev, env);
    }
  }

  lemma MembershipDeletedKeepsValid(s: State, ev: Json, env: Env)
    requires Valid(s)
    ensures Valid(MembershipDeleted(s, ev, env).state)
  {
    var data := Get(ev, "data");
    if data.Some? && Has(data.value, "id") {
      var clerkMembershipId := Text(data.value, "id");
      var removed := Current.MembershipRemoved(s, clerkMembershipId);
      CurrentProperties.MembershipRemovedKeepsValid(s, clerkMembershipId);
      var clerkOrgId := Current.FieldText(data.value, "organization_id");
      var clerkUserId := TextAt(data.value, ["public_user_data", "user_id"]);
      OrganizationAuditKeepsValid(removed, clerkOrgId, clerkUserId, "organizationMembership.deleted", ev, env);
      assert MembershipDeleted(s, ev, env).state ==
             OrganizationAudit(removed, clerkOrgId, clerkUserId, "organizationMembership.deleted", ev, env);
    }
  }

  lemma UserCreatedKeepsValid(s: State, ev: Json, env: Env)
    requires Valid(s)
    ensures Valid(UserCreated(s, ev, env).state)
  {
    var data := Get(ev, "data");
    if data.Some? && Has(data.value, "id") && EmailOf(data.value).Email? {
      var clerkUserId := Text(data.value, "id");
      if UserIndex(s.users, clerkUserId).None? {
        var user := User(s.nextId, clerkUserId, EmailOf(data.value).address,
                         Current.FieldText(data.value, "first_name"), Current.FieldText(data.value, "last_name"),
                         Current.FieldText(data.value, "image_url"));
        CurrentProperties.AddUserKeepsValid(s, user);
        UserAuditKeepsValid(s.(users := s.users + [user], nextId := s.nextId + 1), clerkUserId, "user.created", ev, env);
      }
    }
  }

  // ------------------------------------------------------------------
  // Skipped events leave no trace
  // ------------------------------------------------------------------

  /** A user.created without an email, or for a known user, and an
    * organization.created for a known organization change nothing at all,
    * not even the audit log. */
  lemma SkippedEventsLeaveNoTrace(s: State, ev: Json, env: Env)
    requires Get(ev, "data").Some? && Has(Get(ev, "data").value, "id")
    ensures var data := Get(ev, "data").value;
            (EmailOf(data).NoEmail? || UserIndex(s.users, Text(data, "id")).Some? ==>
               UserCreated(s, ev, env).state == s)
            && (OrganizationIndex(s.organizations, Text(data, "id")).Some? ==> OrganizationCreated(s, ev, env).state == s)
  {
  }

  /** Delivering user.created or organization.created again changes nothing:
    * the entity now exists, and a skip writes no audit row. */
  lemma CreatedTwiceIsNoOp(s: State, ev: Json, env1: Env, env2: Env)
    ensures var once := UserCreated(s, ev, env1);
            once.outcome.Done? ==> UserCreated(once.state, ev, env2) == Current.Step(Current.Done, once.state)
    ensures var once := OrganizationCreated(s, ev, env1);
            once.outcome.Done? ==> OrganizationCreated(once.state, ev, env2) == Current.Step(Current.Done, once.state)
  {
    var data := Get(ev, "data");
    if data.Some? && Has(data.value, "id") {
      var id := Text(data.value, "id");
      var u := UserCreated(s, ev, env1).state;
      if EmailOf(data.value).Email? && UserIndex(s.users, id).None? {
        assert u.users[|s.users|].clerkUserId == id;
      }
      var o := OrganizationCreated(s, ev, env1).state;
      if OrganizationIndex(s.organizations, id).None? {
        assert o.organizations[|s.organizations|].clerkOrgId == id;
      }
    }
  }

  /** A user.updated for a user the database does not know behaves as
    * user.created: the same new state, and success exactly when that
    * succeeds (a failure is re-thrown under the update's own message). */
  lemma UserUpdatedOfUnknownUserCreates(s: State, ev: Json, env: Env)
    requires Get(ev, "data").Some? && Has(Get(ev, "data").value, "id")
    requires UserIndex(s.users, Text(Get(ev, "data").value, "id")).None?
    ensures UserUpdated(s, ev, env).state == UserCreated(s, ev, env).state
    ensures UserUpdated(s, ev, env).outcome.Done? <==> UserCreated(s, ev, env).outcome.Done?
  {
  }

  /** A user.updated for a known user overwrites only the name and image
    * fields the payload carries: id, clerk id and email stay, and every other
    * user is untouched. */
  lemma UserUpdatedKeepsIdentity(s: State, ev: Json, env: Env)
    requires Get(ev, "data").Some? && Has(Get(ev, "data").value, "id")
    requires UserIndex(s.users, Text(Get(ev, "data").value, "id")).Some?
    ensures var data := Get(ev, "data").value;
            var i := UserIndex(s.users, Text(data, "id")).value;
            var r := UserUpdated(s, ev, env).state;
            |r.users| == |s.users| && r.nextId == s.nextId
            && (forall k :: 0 <= k < |s.users| && k != i ==> r.users[k] == s.users[k])
            && r.users[i].id == s.users[i].id && r.users[i].clerkUserId == s.users[i].clerkUserId
            && r.users[i].email == s.users[i].email
            && r.users[i].firstName == Current.Overwrite(s.users[i].firstName, data, "first_name")
            && r.users[i].lastName == Current.Overwrite(s.users[i].lastName, data, "last_name")
            && r.users[i].imageUrl == Current.Overwrite(s.users[i].imageUrl, data, "image_url")
  {
  }

  /** The stored email is the first address's `email_address`, never
    * `primary_email_address` or `email`. */
  lemma EmailOnlyFromFirstAddress(s: State, ev: Json, env: Env)
    requires UserCreated(s, ev, env).state.users != s.users
    ensures var data := Get(ev, "data").value;
            var items := Get(data, "email_addresses").value.items;
            var users := UserCreated(s, ev, env).state.users;
            |items| > 0 && |users| > 0 && users[|users| - 1].email == Text(items[0], "email_address")
  {
  }

  // ------------------------------------------------------------------
  // Against the current service
  // ------------------------------------------------------------------

  /** A payload that names its email only in `primary_email_address` creates
    * a user in the current service and nothing in the legacy one. */
  lemma PrimaryEmailOnlyDiffers(s: State, ev: Json, env: Env)
    requires Get(ev, "data").Some? && Has(Get(ev, "data").value, "id")
    requires !Has(Get(ev, "data").value, "email_addresses")
    requires Has(Get(ev, "data").value, "primary_email_address")
    requires Text(Get(ev, "data").value, "primary_email_address") != ""
    requires UserIndex(s.users, Text(Get(ev, "data").value, "id")).None?
    ensures |Current.UserCreated(s, ev, env).state.users| == |s.users| + 1
    ensures UserCreated(s, ev, env).state == s
  {
  }

  /** The membership tables of the two services agree on membership.deleted,
    * and on membership.created whenever both read the same role name. */
  lemma MembershipHandlersAgree(s: State, ev: Json, env: Env)
    ensures Current.Entities(MembershipDeleted(s, ev, env).state) == Current.Entities(Current.MembershipDeleted(s, ev, env).state)
    ensures MembershipDeleted(s, ev, env).outcome == Current.MembershipDeleted(s, ev, env).outcome
    ensures Get(ev, "data").Some? && LegacySyncSpec.RoleNameOf(Get(ev, "data").value) == Current.RoleNameOf(Get(ev, "data").value) ==>
              Current.Entities(MembershipCreated(s, ev, env).state) == Current.Entities(Current.MembershipCreated(s, ev, env).state)
              && MembershipCreated(s, ev, env).outcome == Current.MembershipCreated(s, ev, env).outcome
  {
  }

  /** Without `role` the legacy service ignores `public_metadata.role` and
    * asks for USER. */
  lemma RoleNameIgnoresMetadata(data: Json)
    requires !Has(data, "role")
    ensures LegacySyncSpec.RoleNameOf(data) == "USER"
    ensures TextAt(data, ["public_metadata", "role"]).Some? ==>
              Current.RoleNameOf(data) == TextAt(data, ["public_metadata", "role"]).value
  {
  }
}
