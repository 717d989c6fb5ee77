/** The webhook service as it runs: each handler reads and writes the
  * database step by step, and is proved to make exactly the transition that
  * module SyncSpec gives it. */
module UserWebhookService {
  import opened Common
  import opened Json
  import opened Store
  import opened Audit
  import opened MembershipRepository
  import opened SyncSpec

  class WebhookService {
    const db: Database

    constructor (db: Database)
      ensures this.db == db
    {
      this.db := db;
    }

    /** `storeUserEvent`: skip a recorded event id, swallow a failed write. */
    method RecordUserEvent(clerkUserId: string, eventType: string, ev: Json, env: Env)
      modifies db
      ensures db.Snapshot() ==
              old(db.Snapshot()).(userEvents := StoreUserEvent(old(db.userEvents), clerkUserId, eventType, ev, env))
    {
      var eventId := EventId(ev, env.nowMillis);
      if eventId.Some? && HasUserEventId(db.userEvents, eventId.value) {
        return;
      }
      if !env.auditStoreUp {
        return;
      }
      db.userEvents := db.userEvents + [UserEvent(AuditUserId(clerkUserId, ev), eventType, ev, eventId)];
    }

    /** `storeOrganizationEvent`: skip a recorded event id, swallow a failed write. */
    method RecordOrganizationEvent(clerkOrgId: Option<string>, clerkUserId: Option<string>, eventType: string,
                                   ev: Json, env: Env)
      modifies db
      ensures db.Snapshot() ==
              old(db.Snapshot()).(organizationEvents :=
                StoreOrganizationEvent(old(db.organizationEvents), clerkOrgId, clerkUserId, eventType, ev, env))
    {
      var eventId := EventId(ev, env.nowMillis);
      if eventId.Some? && HasOrganizationEventId(db.organizationEvents, eventId.value) {
        return;
      }
      if !env.auditStoreUp {
        return;
      }
      var row := OrganizationEvent(AuditOrganizationId(clerkOrgId, ev), AuditOrganizationUserId(clerkUserId, ev),
                                   eventType, ev, eventId);
      db.organizationEvents := db.organizationEvents + [row];
    }

    method ProcessUserCreated(ev: Json, env: Env) returns (outcome: Outcome)
      modifies db
      ensures Step(outcome, db.Snapshot()) == UserCreated(old(db.Snapshot()), ev, env)
    {
      var data := Get(ev, "data");
      if data.None? {
        return Failed(UserCreatedNoData);
      }
      if !Has(data.value, "id") {
        return Failed(UserCreatedNoId);
      }
      var clerkUserId := Text(data.value, "id");
      var email := EmailOf(data.value);
      if email.None? || email.value == "" || UserIndex(db.users, clerkUserId).Some? {
        RecordUserEvent(clerkUserId, "user.created", ev, env);
        return Done;
      }
      var id := db.NewId();
      db.users := db.users + [User(id, clerkUserId, email.value, FieldText(data.value, "first_name"),
                                   FieldText(data.value, "last_name"), FieldText(data.value, "image_url"))];
      RecordUserEvent(clerkUserId, "user.created", ev, env);
      return Done;
    }

    method ProcessUserUpdated(ev: Json, env: Env) returns (outcome: Outcome)
      modifies db
      ensures Step(outcome, db.Snapshot()) == UserUpdated(old(db.Snapshot()), ev, env)
    {
      var data := Get(ev, "data");
      if data.None? || !Has(data.value, "id") {
        return Failed(UserUpdatedFailure);
      }
      var clerkUserId := Text(data.value, "id");
      var found := UserIndex(db.users, clerkUserId);
      if found.None? {
        outcome := ProcessUserCreated(ev, env);
        return;
      }
      var i := found.value;
      var user := db.users[i];
      if Has(data.value, "first_name") {
        user := user.(firstName := Some(Text(data.value, "first_name")));
      }
      if Has(data.value, "last_name") {
        user := user.(lastName := Some(Text(data.value, "last_name")));
      }
      if Has(data.value, "image_url") {
        user := user.(imageUrl := Some(Text(data.value, "image_url")));
      }
      db.users := db.users[i := user];
      RecordUserEvent(clerkUserId, "user.updated", ev, env);
      return Done;
    }

    method ProcessOrganizationCreated(ev: Json, env: Env) returns (outcome: Outcome)
      modifies db
      ensures Step(outcome, db.Snapshot()) == OrganizationCreated(old(db.Snapshot()), ev, env)
    {
      var data := Get(ev, "data");
      if data.None? {
        return Failed(OrganizationCreatedNoData);
      }
      if !Has(data.value, "id") {
        return Failed(OrganizationCreatedNoId);
      }
      var clerkOrgId := Text(data.value, "id");
      if OrganizationIndex(db.organizations, clerkOrgId).None? {
        var id := db.NewId();
        var org := Organization(id, clerkOrgId, FieldText(data.value, "name").GetOr(UnnamedOrganization),
                                FieldText(data.value, "slug"), FieldText(data.value, "image_url"));
        db.organizations := db.organizations + [org];
      }
      RecordOrganizationEvent(Some(clerkOrgId), None, "organization.created", ev, env);
      return Done;
    }

    method ProcessOrganizationUpdated(ev: Json, env: Env) returns (outcome: Outcome)
      modifies db
      ensures Step(outcome, db.Snapshot()) == OrganizationUpdated(old(db.Snapshot()), ev, env)
    {
      var data := Get(ev, "data");
      if data.None? {
        return Failed(OrganizationUpdatedNoData);
      }
      if !Has(data.value, "id") {
        return Failed(OrganizationUpdatedNoId);
      }
      var clerkOrgId := Text(data.value, "id");
      var found := OrganizationIndex(db.organizations, clerkOrgId);
      if found.None? {
        outcome := ProcessOrganizationCreated(ev, env);
        return;
      }
      var i := found.value;
      var org := db.organizations[i];
      if Has(data.value, "name") {
        org := org.(name := Text(data.value, "name"));
      }
      if Has(data.value, "slug") {
        org := org.(slug := Some(Text(data.value, "slug")));
      }
      if Has(data.value, "image_url") {
        org := org.(imageUrl := Some(Text(data.value, "image_url")));
      }
      db.organizations := db.organizations[i := org];
      RecordOrganizationEvent(Some(clerkOrgId), None, "organization.updated", ev, env);
      return Done;
    }

    method ProcessOrganizationDeleted(ev: Json, env: Env) returns (outcome: Outcome)
      modifies db
      ensures Step(outcome, db.Snapshot()) == OrganizationDeleted(old(db.Snapshot()), ev, env)
    {
      var data := Get(ev, "data");
      if data.None? {
        return Failed(OrganizationDeletedNoData);
      }
      if !Has(data.value, "id") {
        return Failed(OrganizationDeletedNoId);
      }
      var clerkOrgId := Text(data.value, "id");
      var found := OrganizationIndex(db.organizations, clerkOrgId);
      if found.Some? {
        var org := db.organizations[found.value];
        db.memberships := WithoutOrganization(db.memberships, org.id);
        db.organizations := RemoveAt(db.organizations, found.value);
      }
      RecordOrganizationEvent(Some(clerkOrgId), None, "organization.deleted", ev, env);
      return Done;
    }

    /** The find-by-pair-then-save step of `processOrganizationMembershipCreated`. */
    method SaveMembership(userId: int, organizationId: int, role: string, clerkMembershipId: string)
      modifies db
      ensures db.Snapshot() == UpsertMembership(old(db.Snapshot()), userId, organizationId, role, clerkMembershipId)
    {
      var existing := PairIndex(db.memberships, userId, organizationId);
      if existing.Some? {
        var i := existing.value;
        db.memberships := db.memberships[i := db.memberships[i].(roleName := role,
                                                                 clerkMembershipId := clerkMembershipId)];
      } else {
        var id := db.NewId();
        db.memberships := db.memberships + [Membership(id, userId, organizationId, role, clerkMembershipId)];
      }
    }

    method ProcessMembershipCreated(ev: Json, env: Env) returns (outcome: Outcome)
      modifies db
      ensures Step(outcome, db.Snapshot()) == MembershipCreated(old(db.Snapshot()), ev, env)
    {
      var data := Get(ev, "data");
      if data.None? || !Has(data.value, "id") || !Has(data.value, "organization_id")
         || TextAt(data.value, ["public_user_data", "user_id"]).None? {
        return Failed(MembershipCreatedFailure);
      }
      var clerkMembershipId := Text(data.value, "id");
      var clerkOrgId := Text(data.value, "organization_id");
      var clerkUserId := TextAt(data.value, ["public_user_data", "user_id"]).value;
      var roleName := RoleNameOf(data.value);
      if FindByClerkMembershipId(db.memberships, clerkMembershipId).Some? {
        return Done;
      }
      var user := FindUser(db.users, clerkUserId);
      if user.None? {
        return Failed(MembershipCreatedFailure);
      }
      var org := FindOrganization(db.organizations, clerkOrgId);
      if org.None? {
        return Failed(MembershipCreatedFailure);
      }
      var role := ResolveRole(db.roles, roleName);
      if role.None? {
        return Failed(MembershipCreatedFailure);
      }
      SaveMembership(user.value.id, org.value.id, role.value, clerkMembershipId);
      RecordOrganizationEvent(Some(clerkOrgId), Some(clerkUserId), "organizationMembership.created", ev, env);
      return Done;
    }

    method ProcessMembershipUpdated(ev: Json, env: Env) returns (outcome: Outcome)
      modifies db
      ensures Step(outcome, db.Snapshot()) == MembershipUpdated(old(db.Snapshot()), ev, env)
    {
      var data := Get(ev, "data");
      if data.None? {
        return Failed(MembershipUpdatedNoData);
      }
      if !Has(data.value, "id") {
        return Failed(MembershipUpdatedNoId);
      }
      var clerkMembershipId := Text(data.value, "id");
      var clerkOrgId := FieldText(data.value, "organization_id");
      var clerkUserId := MembershipUserId(data.value);
      if clerkOrgId.None? {
        return Failed(MembershipUpdatedNoOrganization);
      }
      if clerkUserId.None? {
        return Failed(MembershipUpdatedNoUser);
      }
      var roleName := RoleNameOf(data.value);
      var found := MembershipIndex(db.memberships, clerkMembershipId);
      if found.None? {
        var created := ProcessMembershipCreated(ev, env);
        if created.Failed? {
          return Failed(MembershipUpdatedFailure + created.message);
        }
        return created;
      }
      var role := ResolveRole(db.roles, roleName);
      if role.None? {
        return Failed(MembershipUpdatedNoDefaultRole);
      }
      var i := found.value;
      db.memberships := db.memberships[i := db.memberships[i].(roleName := role.value,
                                                               clerkMembershipId := clerkMembershipId)];
      RecordOrganizationEvent(clerkOrgId, clerkUserId, "organizationMembership.updated", ev, env);
      return Done;
    }

    method ProcessMembershipDeleted(ev: Json, env: Env) returns (outcome: Outcome)
      modifies db
      ensures Step(outcome, db.Snapshot()) == MembershipDeleted(old(db.Snapshot()), ev, env)
    {
      var data := Get(ev, "data");
      if data.None? || !Has(data.value, "id") {
        return Failed(MembershipDeletedFailure);
      }
      var clerkMembershipId := Text(data.value, "id");
      var clerkOrgId := FieldText(data.value, "organization_id");
      var clerkUserId := TextAt(data.value, ["public_user_data", "user_id"]);
      var found := MembershipIndex(db.memberships, clerkMembershipId);
      if found.Some? {
        db.memberships := RemoveAt(db.memberships, found.value);
      }
      RecordOrganizationEvent(clerkOrgId, clerkUserId, "organizationMembership.deleted", ev, env);
      return Done;
    }

    method ProcessEmailCreated(ev: Json, env: Env) returns (outcome: Outcome)
      modifies db
      ensures Step(outcome, db.Snapshot()) == EmailCreated(old(db.Snapshot()), ev, env)
    {
      var data := Get(ev, "data");
      if data.None? {
        return Done;
      }
      var clerkUserId :=
        if Has(data.value, "user_id") then Some(Text(data.value, "user_id")) else TextAt(data.value, ["user", "id"]);
      RecordUserEvent(clerkUserId.GetOr(UnknownUser), "email.created", ev, env);
      return Done;
    }

    /** The audit write shared by the three role handlers. */
    method RecordRoleEvent(data: Json, eventType: string, ev: Json, env: Env)
      modifies db
      ensures db.Snapshot() == RoleAudit(old(db.Snapshot()), data, eventType, ev, env)
    {
      var clerkOrgId := RoleEventOrganizationId(data);
      var clerkUserId := RoleEventUserId(data);
      if clerkOrgId.Some? {
        RecordOrganizationEvent(clerkOrgId, clerkUserId, eventType, ev, env);
      } else {
        RecordUserEvent(clerkUserId.GetOr(UnknownUser), eventType, ev, env);
      }
    }

    method ProcessRoleCreated(ev: Json, env: Env) returns (outcome: Outcome)
      modifies db
      ensures Step(outcome, db.Snapshot()) == RoleCreated(old(db.Snapshot()), ev, env)
    {
      var data := Get(ev, "data");
      if data.None? {
        return Done;
      }
      var roleName := RoleEventName(data.value);
      if roleName.Some? && roleName.value != "" && ToUpper(roleName.value) !in db.roles {
        db.roles := db.roles[ToUpper(roleName.value) := Some(CreatedRoleDescription)];
      }
      RecordRoleEvent(data.value, "role.created", ev, env);
      return Done;
    }

    method ProcessRoleUpdated(ev: Json, env: Env) returns (outcome: Outcome)
      modifies db
      ensures Step(outcome, db.Snapshot()) == RoleUpdated(old(db.Snapshot()), ev, env)
    {
      var data := Get(ev, "data");
      if data.None? {
        return Done;
      }
      var roleName := RoleEventName(data.value);
      if roleName.Some? && roleName.value != "" {
        var name := ToUpper(roleName.value);
        if name in db.roles {
          if Has(data.value, "description") {
            db.roles := db.roles[name := Some(Text(data.value, "description"))];
          }
        } else {
          var _ := ProcessRoleCreated(ev, env);
        }
      }
      RecordRoleEvent(data.value, "role.updated", ev, env);
      return Done;
    }

    method ProcessRoleDeleted(ev: Json, env: Env) returns (outcome: Outcome)
      modifies db
      ensures Step(outcome, db.Snapshot()) == RoleDeleted(old(db.Snapshot()), ev, env)
    {
      var data := Get(ev, "data");
      if data.None? {
        return Done;
      }
      var roleName := RoleEventName(data.value);
      if roleName.Some? && roleName.value != "" {
        var name := ToUpper(roleName.value);
        if name in db.roles && name != "ADMIN" && name != "USER" {
          if RoleReferenced(db.memberships, name) {
            return Failed(RoleDeletedStillReferenced);
          }
          db.roles := db.roles - {name};
        }
      }
      RecordRoleEvent(data.value, "role.deleted", ev, env);
      return Done;
    }

    method ProcessPaymentAttempt(ev: Json, env: Env) returns (outcome: Outcome)
      modifies db
      ensures Step(outcome, db.Snapshot()) == PaymentAttempt(old(db.Snapshot()), ev, env)
    {
      var data := Get(ev, "data");
      if data.None? {
        return Done;
      }
      var clerkUserId :=
        if Has(data.value, "user_id") then Some(Text(data.value, "user_id"))
        else if TextAt(data.value, ["user", "id"]).Some? then TextAt(data.value, ["user", "id"])
        else TextAt(data.value, ["metadata", "user_id"]);
      RecordUserEvent(clerkUserId.GetOr(UnknownUser), "payment.attempt", ev, env);
      return Done;
    }
  }
}
