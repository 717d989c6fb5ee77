/** The legacy webhook service as it runs, proved to make the transitions
  * of module LegacySyncSpec. */
module LegacyWebhookService {
  import opened Common
  import opened Json
  import opened Store
  import opened Audit
  import opened MembershipRepository
  import Current = SyncSpec
  import opened LegacySyncSpec

  class WebhookService {
    const db: Database

    constructor (db: Database)
      ensures this.db == db
    {
      this.db := db;
    }

    /** `storeUserEvent` */
    method RecordUserEvent(clerkUserId: string, eventType: string, ev: Json, env: Env)
      modifies db
      ensures db.Snapshot() == old(db.Snapshot()).(userEvents :=
                LegacySyncSpec.StoreUserEvent(old(db.userEvents), clerkUserId, eventType, ev, env))
    {
      var eventId := if Has(ev, "id") then Some(Text(ev, "id")) else None;
      if eventId.Some? && HasUserEventId(db.userEvents, eventId.value) {
        return;
      }
      if env.auditStoreUp {
        db.userEvents := db.userEvents + [UserEvent(clerkUserId, eventType, ev, eventId)];
      }
    }

    /** `storeOrganizationEvent` */
    method RecordOrganizationEvent(clerkOrgId: Option<string>, clerkUserId: Option<string>, eventType: string,
                                   ev: Json, env: Env)
      modifies db
      ensures db.Snapshot() == old(db.Snapshot()).(organizationEvents :=
                LegacySyncSpec.StoreOrganizationEvent(old(db.organizationEvents), clerkOrgId, clerkUserId, eventType, ev, env))
    {
      var eventId := if Has(ev, "id") then Some(Text(ev, "id")) else None;
      if eventId.Some? && HasOrganizationEventId(db.organizationEvents, eventId.value) {
        return;
      }
      if env.auditStoreUp {
        db.organizationEvents := db.organizationEvents + [OrganizationEvent(clerkOrgId, clerkUserId, eventType, ev, eventId)];
      }
    }

    method ProcessUserCreated(ev: Json, env: Env) returns (outcome: Current.Outcome)
      modifies db
      ensures Current.Step(outcome, db.Snapshot()) == UserCreated(old(db.Snapshot()), ev, env)
    {
      var data := Get(ev, "data");
      if data.None? || !Has(data.value, "id") {
        return Current.Failed(UserCreatedFailure);
      }
      var clerkUserId := Text(data.value, "id");
      var email := EmailOf(data.value);
      if email.NullEmail? {
        return Current.Failed(UserCreatedFailure);
      }
      if email.NoEmail? || UserIndex(db.users, clerkUserId).Some? {
        return Current.Done;
      }
      var id := db.NewId();
      db.users := db.users + [User(id, clerkUserId, email.address, Current.FieldText(data.value, "first_name"),
                                   Current.FieldText(data.value, "last_name"), Current.FieldText(data.value, "image_url"))];
      RecordUserEvent(clerkUserId, "user.created", ev, env);
      return Current.Done;
    }

    method ProcessUserUpdated(ev: Json, env: Env) returns (outcome: Current.Outcome)
      modifies db
      ensures Current.Step(outcome, db.Snapshot()) == UserUpdated(old(db.Snapshot()), ev, env)
    {
      var data := Get(ev, "data");
      if data.None? || !Has(data.value, "id") {
        return Current.Failed(UserUpdatedFailure);
      }
      var clerkUserId := Text(data.value, "id");
      var found := UserIndex(db.users, clerkUserId);
      if found.None? {
        outcome := ProcessUserCreated(ev, env);
        if outcome.Failed? {
          outcome := Current.Failed(UserUpdatedFailure);
        }
        return;
      }
      var i := found.value;
      var user := db.users[i];
      if Has(data.value, "first_name") {
        user := user.(firstName := Some(Text(data.value, "first_name")));
      }
      if Has(data.value, "last_name") {
        user := user.(lastName := Some(Text(data.value, "last_name")));
      }
      if Has(data.value, "image_url") {
        user := user.(imageUrl := Some(Text(data.value, "image_url")));
      }
      db.users := db.users[i := user];
      RecordUserEvent(clerkUserId, "user.updated", ev, env);
      return Current.Done;
    }

    method ProcessOrganizationCreated(ev: Json, env: Env) returns (outcome: Current.Outcome)
      modifies db
      ensures Current.Step(outcome, db.Snapshot()) == OrganizationCreated(old(db.Snapshot()), ev, env)
    {
      var data := Get(ev, "data");
      if data.None? || !Has(data.value, "id") {
        return Current.Failed(OrganizationCreatedFailure);
      }
      var clerkOrgId := Text(data.value, "id");
      if OrganizationIndex(db.organizations, clerkOrgId).Some? {
        return Current.Done;
      }
      var id := db.NewId();
      var org := Organization(id, clerkOrgId, Current.FieldText(data.value, "name").GetOr(Current.UnnamedOrganization),
                              Current.FieldText(data.value, "slug"), Current.FieldText(data.value, "image_url"));
      db.organizations := db.organizations + [org];
      RecordOrganizationEvent(Some(clerkOrgId), None, "organization.created", ev, env);
      return Current.Done;
    }

    /** The find-by-pair-then-save step of `processOrganizationMembershipCreated`. */
    method SaveMembership(userId: int, organizationId: int, role: string, clerkMembershipId: string)
      modifies db
      ensures db.Snapshot() == Current.UpsertMembership(old(db.Snapshot()), userId, organizationId, role, clerkMembershipId)
    {
      var existing := PairIndex(db.memberships, userId, organizationId);
      if existing.Some? {
        var i := existing.value;
        db.memberships := db.memberships[i := db.memberships[i].(roleName := role,
                                                                 clerkMembershipId := clerkMembershipId)];
      } else {
        var id := db.NewId();
        db.memberships := db.memberships + [Membership(id, userId, organizationId, role, clerkMembershipId)];
      }
    }

    method ProcessMembershipCreated(ev: Json, env: Env) returns (outcome: Current.Outcome)
      modifies db
      ensures Current.Step(outcome, db.Snapshot()) == MembershipCreated(old(db.Snapshot()), ev, env)
    {
      var failed := Current.Failed(MembershipCreatedFailure);
      var data := Get(ev, "data");
      if data.None? || !Has(data.value, "id") || !Has(data.value, "organization_id")
         || TextAt(data.value, ["public_user_data", "user_id"]).None? {
        return failed;
      }
      var clerkMembershipId := Text(data.value, "id");
      var clerkOrgId := Text(data.value, "organization_id");
      var clerkUserId := TextAt(data.value, ["public_user_data", "user_id"]).value;
      var roleName := RoleNameOf(data.value);
      if FindByClerkMembershipId(db.memberships, clerkMembershipId).Some? {
        return Current.Done;
      }
      var user := FindUser(db.users, clerkUserId);
      var org := FindOrganization(db.organizations, clerkOrgId);
      var role := Current.ResolveRole(db.roles, roleName);
      if user.None? || org.None? || role.None? {
        return failed;
      }
      SaveMembership(user.value.id, org.value.id, role.value, clerkMembershipId);
      RecordOrganizationEvent(Some(clerkOrgId), Some(clerkUserId), "organizationMembership.created", ev, env);
      return Current.Done;
    }

    method ProcessMembershipDeleted(ev: Json, env: Env) returns (outcome: Current.Outcome)
      modifies db
      ensures Current.Step(outcome, db.Snapshot()) == MembershipDeleted(old(db.Snapshot()), ev, env)
    {
      var data := Get(ev, "data");
      if data.None? || !Has(data.value, "id") {
        return Current.Failed(MembershipDeletedFailure);
      }
      var clerkMembershipId := Text(data.value, "id");
      var clerkOrgId := Current.FieldText(data.value, "organization_id");
      var clerkUserId := TextAt(data.value, ["public_user_data", "user_id"]);
      var found := MembershipIndex(db.memberships, clerkMembershipId);
      if found.Some? {
        db.memberships := RemoveAt(db.memberships, found.value);
      }
      RecordOrganizationEvent(clerkOrgId, clerkUserId, "organizationMembership.deleted", ev, env);
      return Current.Done;
    }
  }
}
