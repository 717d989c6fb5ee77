# Clerk webhook synchroniser — a Dafny model

This project models the core of a Spring back end that mirrors users,
organizations, memberships and roles from the Clerk identity service into
its own database. Clerk delivers webhook events such as `user.created` and
`organizationMembership.deleted`. The back end checks their Svix signature,
routes them to idempotent handlers, and records each one in an audit log.

The model also covers what reads those tables:
- the authorization queries and the role repair (`updateUserRole`);
- the membership repository queries;
- the organization and user listings, with their access gates and paging;
- the API gateway's JWT filter, which turns a bearer token into trusted
  `X-User-Id` / `X-Org-Id` headers.

## Layout

| file | what it holds |
|---|---|
| `common.dfy` | Option / Attempt / Answer, first-match lookup, filtering, uniqueness lemmas, ASCII upper-casing, Java `String.split` |
| `json.dfy` | a small JSON value with `has`, `get`, `asText` and path lookup |
| `store.dfy` | the tables (`State`), their constraints (`Valid`), and the mutable `Database` the services share |
| `membership_repository.dfy`, `legacy_membership_repository.dfy` | the JPQL queries as filters over the membership rows |
| `audit.dfy` | event-id extraction and the de-duplicated audit writes |
| `sync_spec.dfy` | every webhook handler as a transition `State -> (outcome, State)` |
| `webhook_service.dfy` | the handlers written step by step on `Database`, each proved equal to its transition |
| `sync_properties.dfy` | invariants and idempotence of the handlers |
| `legacy_sync_spec.dfy`, `legacy_webhook_service.dfy`, `legacy_sync_properties.dfy` | the older webhook service, and how it differs from the current one |
| `webhook_controller.dfy` | header fallback, signature check, constant-time comparison, routing and status codes |
| `authorization.dfy`, `legacy_authorization.dfy` | access, role and admin checks, and the role repair |
| `organization_service.dfy` | organization lookups, member paging with 32-bit arithmetic, page count |
| `user_service.dfy` | admin-only user listings, default sort, per-user role summaries |
| `jwt_filter.dfy` | the gateway filter, key lookup with its cache, and token checks |

## Modelling choices

- **Tables.** Each table is a sequence of rows in insertion order, and a
  lookup returns the first matching row. The unique constraints are stated
  by the predicate `Store.Valid`:
  - unique clerk ids and primary keys;
  - one membership per (user, organization) (Membership.java line 12);
  - a unique `clerk_membership_id` (Membership.java line 44);
  - foreign keys from a membership to its user, its organization and its
    role (Membership.java lines 40-42 make the role non-null).

  `Store.Valid` also holds one invariant that no column enforces: each audit
  event id is recorded at most once. The audit tables declare no unique
  column; the handlers keep the invariant by looking the id up before they
  write.

  Roles are a map from name to description. Every table draws identities
  from one counter, `nextId`.
- **Handlers.** Each handler is specified by a function from the old state
  to an outcome (`Done` or `Failed(message)`) and a new state. The class
  method that performs it is proved to produce exactly that pair.
  - A handler throws only before its first write. So a failure leaves the
    state unchanged, which is what the transaction rollback guarantees.
    The one exception is `role.deleted` of a role that a membership still
    uses: the delete fails when the transaction commits, and the rollback
    leaves the state, audit row included, as it was.
  - Each handler re-throws with its own message, and the model keeps those
    messages.
- **Audit writes.** Whether the audit store is reachable, and the clock, are
  parameters (`Env`). A failed audit write is swallowed by the handler's own `catch`, and the
  handler goes on; what the surrounding transaction then does is not
  modelled (see "## Left out").
- **Oracles.** JSON parsing, Base64, HMAC-SHA256, RSA key construction and
  signed-JWT parsing are function-valued parameters, so the proofs hold
  for any implementation of them.
- **Integer arithmetic.** The organization member paging computes
  `page * size` in 32-bit `int`. The model wraps that product explicitly.
- **`String.split`.** It is modelled with Java's rule that trailing empty
  strings are dropped.
- **Upper-casing.** `toUpperCase` is modelled on ASCII letters only.
- **Where the model follows the code rather than the comments:**
  - The controller routes only five event types (WebhookController.java
    lines 100-121). The organization-updated and organization-deleted
    handlers, the membership-updated, role, email and payment handlers
    exist, but no request reaches them.
  - `OrganizationService.getOrganizationMembers` calls
    `findByOrganizationIdWithRelations`, which the user `MembershipRepository`
    does not declare. The model reads it as the organization's memberships
    whose user row and role row exist, mirroring `findByUserIdWithRelations`.

## Model

| member | source | states |
|---|---|---|
| Json.Get | backend-service/src/main/java/com/demo/backend/service/user/WebhookService.java:36 | `get(k)` is present exactly when the node is an object holding `k`, and then returns that field |
| Json.GetPath | backend-service/src/main/java/com/demo/backend/service/user/WebhookService.java:298 | an empty path is the node itself; a chain of `get` calls otherwise |
| Json.TextAt | backend-service/src/main/java/com/demo/backend/service/user/WebhookService.java:298 | a nested text lookup succeeds exactly when every step of the path exists |
| Json.TextAtOne | backend-service/src/main/java/com/demo/backend/service/user/WebhookService.java:42 | a one-step text lookup is present exactly when the node has the key, and is that field's text |
| Json.TextAtTwo | backend-service/src/main/java/com/demo/backend/service/user/WebhookService.java:298 | a two-step path is present exactly when both steps are |
| MembershipRepository.MembershipIndex | backend-service/src/main/java/com/demo/backend/repository/user/MembershipRepository.java:14 | finds a row with the clerk membership id, the first one; none exactly when no row has it |
| MembershipRepository.FindByClerkMembershipId | backend-service/src/main/java/com/demo/backend/repository/user/MembershipRepository.java:14 | the result is a stored row carrying the id; empty exactly when no row has it |
| MembershipRepository.PairIndex | backend-service/src/main/java/com/demo/backend/repository/user/MembershipRepository.java:16-17 | position of the row matching both user id and organization id; none exactly when no row matches both |
| MembershipRepository.FindByUserIdAndOrganizationId | backend-service/src/main/java/com/demo/backend/repository/user/MembershipRepository.java:16-17 | the result matches both ids; empty exactly when no row does |
| MembershipRepository.FindByUserId | backend-service/src/main/java/com/demo/backend/repository/user/MembershipRepository.java:19-20 | exactly the rows of that user |
| MembershipRepository.FindByUserIdWithRelations | backend-service/src/main/java/com/demo/backend/repository/user/MembershipRepository.java:26-30 | the user's rows whose organization and role rows exist (the inner joins) |
| MembershipRepository.FindByOrganizationId | backend-service/src/main/java/com/demo/backend/repository/user/MembershipRepository.java:32-33 | exactly the rows of that organization |
| MembershipRepository.FindByUserIdAndOrganizationIdAndRoleName | backend-service/src/main/java/com/demo/backend/repository/user/MembershipRepository.java:35-40 | a row matching user, organization and exact role name; empty exactly when none matches all three |
| MembershipRepository.FindAdminMembershipsByUserId | backend-service/src/main/java/com/demo/backend/repository/user/MembershipRepository.java:46-47 | exactly the user's rows whose role name is `ADMIN` |
| MembershipRepository.CountAdminIsSizeOfFind | backend-service/src/main/java/com/demo/backend/repository/user/MembershipRepository.java:46-55 | the admin count equals the size of the admin list |
| MembershipRepository.CountByOrganizationIsSizeOfFind | backend-service/src/main/java/com/demo/backend/repository/user/MembershipRepository.java:61-62 | the organization count equals the size of the organization's list |
| MembershipRepository.CountAdminMembershipsByUserId | backend-service/src/main/java/com/demo/backend/repository/user/MembershipRepository.java:54-55 | the count is at most the number of rows, and zero exactly when no row is an ADMIN membership of the user |
| MembershipRepository.CountByOrganizationId | backend-service/src/main/java/com/demo/backend/repository/user/MembershipRepository.java:61-62 | the count is at most the number of rows, and zero exactly when no row belongs to the organization |
| MembershipRepository.PairLookupIsTheOnlyRow | backend-service/src/main/java/com/demo/backend/entity/user/Membership.java:12 | under the (user, organization) unique constraint, the pair lookup finds the one matching row |
| MembershipRepository.ClerkLookupIsTheOnlyRow | backend-service/src/main/java/com/demo/backend/entity/user/Membership.java:44 | under the unique clerk membership id, the lookup finds the one matching row |
| MembershipRepository.RoleQueryRefinesPairQuery | backend-service/src/main/java/com/demo/backend/repository/user/MembershipRepository.java:35-40 | with one row per pair, the role query succeeds exactly when the pair's row has that role name |
| MembershipRepository.WithRelationsIsFindByUserId | backend-service/src/main/java/com/demo/backend/repository/user/MembershipRepository.java:19-30 | when every membership's organization and role exist, the fetch-join query returns the same rows as `findByUserId` |
| LegacyMembershipRepository.FindByClerkMembershipId | backend-service/src/main/java/com/demo/backend/repository/MembershipRepository.java:14 | a stored row with that clerk id, or none when no row has it |
| LegacyMembershipRepository.FindByUserIdAndOrganizationId | backend-service/src/main/java/com/demo/backend/repository/MembershipRepository.java:16-17 | a row matching both ids, or none when no row does |
| LegacyMembershipRepository.FindByUserId | backend-service/src/main/java/com/demo/backend/repository/MembershipRepository.java:19-20 | only rows of that user |
| LegacyMembershipRepository.FindByOrganizationId | backend-service/src/main/java/com/demo/backend/repository/MembershipRepository.java:22-23 | only rows of that organization |
| LegacyMembershipRepository.FindByUserIdAndOrganizationIdAndRoleName | backend-service/src/main/java/com/demo/backend/repository/MembershipRepository.java:25-30 | a row matching both ids and the exact role name, or none |
| LegacyMembershipRepository.ClerkMembershipIdSelectsOneRow | backend-service/src/main/java/com/demo/backend/repository/MembershipRepository.java:14 | at most one row carries a given clerk membership id |
| LegacyMembershipRepository.SameClerkLookup | backend-service/src/main/java/com/demo/backend/repository/MembershipRepository.java:14 | the legacy clerk-id query returns what the current one returns |
| LegacyMembershipRepository.SamePairLookup | backend-service/src/main/java/com/demo/backend/repository/MembershipRepository.java:16-17 | the legacy pair query returns what the current one returns |
| LegacyMembershipRepository.SameUserFilter | backend-service/src/main/java/com/demo/backend/repository/MembershipRepository.java:19-20 | the legacy user query returns the same list as the current one |
| LegacyMembershipRepository.SameOrganizationFilter | backend-service/src/main/java/com/demo/backend/repository/MembershipRepository.java:22-23 | the legacy organization query returns the same list as the current one |
| LegacyMembershipRepository.SameRoleLookup | backend-service/src/main/java/com/demo/backend/repository/MembershipRepository.java:25-30 | the legacy role query finds a row exactly when the current one does |
| Store.UserIndex | backend-service/src/main/java/com/demo/backend/service/user/WebhookService.java:81 | position of the user with the clerk id; none exactly when no user has it |
| Store.UserIndexById | backend-service/src/main/java/com/demo/backend/entity/user/Membership.java:32-34 | position of the user a membership's `user_id` refers to; none exactly when no user has it |
| Store.OrganizationIndex | backend-service/src/main/java/com/demo/backend/service/user/WebhookService.java:161 | position of the organization with the clerk id; none exactly when no organization has it |
| Store.OrganizationIndexById | backend-service/src/main/java/com/demo/backend/service/user/OrganizationService.java:91-92 | position of the organization with that primary key; none exactly when no organization has it |
| Store.Database.NewId | backend-service/src/main/java/com/demo/backend/entity/user/Membership.java:28-30 | an identity column hands out the next number and changes nothing else |
| Audit.EventId | backend-service/src/main/java/com/demo/backend/service/user/WebhookService.java:514-538 | the audit event id is absent exactly when none of `svix_id`, `id`, `event_id` and `instance_id` is present; it is the first of `svix_id`, `id`, `event_id` present, else `instance_id` + "_" + `timestamp`, or the clock when there is no timestamp |
| Audit.StableEventIdIgnoresClock | backend-service/src/main/java/com/demo/backend/service/user/WebhookService.java:517-529 | an id taken from `svix_id`, `id` or `event_id` does not depend on the clock |
| Audit.AuditUserId | backend-service/src/main/java/com/demo/backend/service/user/WebhookService.java:500-509 | a given non-empty user id is kept; otherwise `data.id`, else `data.user_id`; any other result is the given id |
| Audit.AuditOrganizationId | backend-service/src/main/java/com/demo/backend/service/user/WebhookService.java:564-575 | a given non-empty organization id is kept; otherwise `data.id` wins; a changed id comes from `data.id`, `data.organization_id` or `data.organization.id`; null only when given null |
| Audit.AuditOrganizationUserId | backend-service/src/main/java/com/demo/backend/service/user/WebhookService.java:581-626 | a given non-blank user id is kept; a non-blank id found in `data` wins over the event's own fields; null only when given null and the event has no `user_id`, `created_by` or `updated_by` |
| Audit.DataUserId | backend-service/src/main/java/com/demo/backend/service/user/WebhookService.java:586-614 | the user id is `public_user_data.user_id`, else `user_id`, and so on down the seven places; with none of them the given id is kept, and the result is null only when the given id is |
| Audit.StoreUserEvent | backend-service/src/main/java/com/demo/backend/service/user/WebhookService.java:496-558 | the log gains exactly one row or none; a row is added exactly when the store is up and the event id is not already recorded |
| Audit.StoreOrganizationEvent | backend-service/src/main/java/com/demo/backend/service/user/WebhookService.java:560-679 | the same as `StoreUserEvent`, for the organization log, with organization and user ids filled from the payload when not given |
| Audit.StoreUserEventKeepsIdsUnique | backend-service/src/main/java/com/demo/backend/service/user/WebhookService.java:540-552 | recorded event ids stay unique |
| Audit.StoreOrganizationEventKeepsIdsUnique | backend-service/src/main/java/com/demo/backend/service/user/WebhookService.java:660-673 | recorded event ids stay unique |
| Audit.StoreUserEventTwiceWritesOnce | backend-service/src/main/java/com/demo/backend/service/user/WebhookService.java:540-552 | a redelivered event with a stable id adds no second row |
| Audit.StoreOrganizationEventTwiceWritesOnce | backend-service/src/main/java/com/demo/backend/service/user/WebhookService.java:660-673 | a redelivered event with a stable id adds no second row |
| Audit.StoreUserEventRecordsId | backend-service/src/main/java/com/demo/backend/service/user/WebhookService.java:540-552 | after a write with the store up, the event id is recorded |
| Audit.StoreOrganizationEventRecordsId | backend-service/src/main/java/com/demo/backend/service/user/WebhookService.java:660-673 | after a write with the store up, the event id is recorded |
| Audit.StoreUserEventKeepsIds | backend-service/src/main/java/com/demo/backend/service/user/WebhookService.java:496-558 | ids already recorded stay recorded |
| Audit.StoreOrganizationEventKeepsIds | backend-service/src/main/java/com/demo/backend/service/user/WebhookService.java:560-679 | ids already recorded stay recorded |
| SyncSpec.ResolveRole | backend-service/src/main/java/com/demo/backend/service/user/WebhookService.java:333-338 | the upper-cased requested role when it exists, else USER when that exists, else an error; the result is always a stored role |
| SyncSpec.Overwrite | backend-service/src/main/java/com/demo/backend/service/user/WebhookService.java:125-127 | an update overwrites a field only when the payload has it |
| SyncSpec.UserCreated | backend-service/src/main/java/com/demo/backend/service/user/WebhookService.java:32-108 | `user.created`: a failure changes nothing; only the users, the counter and the user audit log can change (when a user is added, and with which fields, is stated by `SyncProperties.UserCreatedAddsIff`) |
| SyncSpec.FirstAddress | backend-service/src/main/java/com/demo/backend/service/user/WebhookService.java:52-54 | the first entry exactly when `email_addresses` is a non-empty array |
| SyncSpec.EmailOf | backend-service/src/main/java/com/demo/backend/service/user/WebhookService.java:50-66 | the email is taken from the first entry's `email_address`, else its `email`, else the entry itself when it is text; with no entries, from `primary_email_address`, else `email`; otherwise none |
| SyncSpec.RoleNameOf | backend-service/src/main/java/com/demo/backend/service/user/WebhookService.java:301-314 | the role name is `data.role`, else `public_metadata.role`, else `public_user_data.role`, else "USER" |
| SyncSpec.MembershipUserId | backend-service/src/main/java/com/demo/backend/service/user/WebhookService.java:393-397 | the membership's user is `public_user_data.user_id`, else `user_id`; none exactly when both are absent |
| SyncSpec.UserUpdated | backend-service/src/main/java/com/demo/backend/service/user/WebhookService.java:111-139 | `user.updated`: a failure changes nothing; only users, the counter and the user audit log can change; an unknown user is created as by `user.created` (`UpdatesOfUnknownEntitiesCreate`), and a known one has only the fields present in the payload overwritten (`UserUpdatedKeepsIdentity`) |
| SyncSpec.OrganizationCreated | backend-service/src/main/java/com/demo/backend/service/user/WebhookService.java:142-187 | `organization.created` succeeds exactly when `data.id` is present, and a failure changes nothing; afterwards the organization is known; a new clerk id appends one row with that id, the name or "Unnamed Organization", the slug and the image, and advances the id counter; a known id leaves the organizations as they were; users, memberships and roles are untouched |
| SyncSpec.OrganizationUpdated | backend-service/src/main/java/com/demo/backend/service/user/WebhookService.java:190-244 | `organization.updated`: a failure changes nothing; users, memberships and roles are untouched; an unknown organization is created as by `organization.created` (`UpdatesOfUnknownEntitiesCreate`), and a known one has only the fields present in the payload overwritten (`OrganizationUpdatedKeepsIdentity`) |
| SyncSpec.WithoutOrganization | backend-service/src/main/java/com/demo/backend/service/user/WebhookService.java:271 | exactly the memberships of other organizations remain |
| SyncSpec.OrganizationDeleted | backend-service/src/main/java/com/demo/backend/service/user/WebhookService.java:247-290 | `organization.deleted`: a failure changes nothing; users, roles and the counter are untouched |
| SyncSpec.OrganizationRemoved | backend-service/src/main/java/com/demo/backend/service/user/WebhookService.java:265-279 | removing an unknown organization changes nothing; users, roles and logs are untouched |
| SyncSpec.MembershipCreated | backend-service/src/main/java/com/demo/backend/service/user/WebhookService.java:293-371 | `organizationMembership.created`: a failure changes nothing; users, organizations and roles are untouched (the row written is stated by `SyncProperties.MembershipCreatedGrantsRequestedRole`) |
| SyncSpec.UpsertMembership | backend-service/src/main/java/com/demo/backend/service/user/WebhookService.java:340-362 | an existing pair is updated in place with the same number of rows; otherwise exactly one row is appended with the next id |
| SyncSpec.MembershipUpdated | backend-service/src/main/java/com/demo/backend/service/user/WebhookService.java:374-467 | `organizationMembership.updated`: a failure changes nothing; users, organizations and roles are untouched (the role written is stated by `SyncProperties.MembershipUpdatedSetsRequestedRole`) |
| SyncSpec.MembershipDeleted | backend-service/src/main/java/com/demo/backend/service/user/WebhookService.java:470-494 | `organizationMembership.deleted`: a failure changes nothing; only memberships and the organization log change |
| SyncSpec.MembershipRemoved | backend-service/src/main/java/com/demo/backend/service/user/WebhookService.java:479-483 | removing an unknown membership changes nothing; the other tables are untouched |
| SyncSpec.EmailCreated | backend-service/src/main/java/com/demo/backend/service/user/WebhookService.java:686-722 | `email.created` always succeeds and changes at most the user audit log |
| SyncSpec.RoleCreated | backend-service/src/main/java/com/demo/backend/service/user/WebhookService.java:729-798 | `role.created` always succeeds; a non-empty `name` (else `key`) whose upper-cased form is not stored is added under that form with the description "Role created from Clerk webhook"; otherwise the roles are unchanged; users, organizations and memberships are untouched |
| SyncSpec.RoleEventName | backend-service/src/main/java/com/demo/backend/service/user/WebhookService.java:740-744 | a role event's role name is `name`, else `key`; none exactly when both are absent |
| SyncSpec.RequestedRole | backend-service/src/main/java/com/demo/backend/service/user/WebhookService.java:766-767 | the role a role event acts on: present exactly when the payload has a non-empty `name` (else `key`), and then its upper-cased form |
| SyncSpec.RoleEventUserId | backend-service/src/main/java/com/demo/backend/service/user/WebhookService.java:750-754 | a role event's user is `user_id`, else `user.id` |
| SyncSpec.RoleEventOrganizationId | backend-service/src/main/java/com/demo/backend/service/user/WebhookService.java:756-760 | a role event's organization is `organization_id`, else `organization.id` |
| SyncSpec.DeletableRole | backend-service/src/main/java/com/demo/backend/service/user/WebhookService.java:924-930 | the role `role.deleted` would remove: present exactly when the upper-cased name is stored and is neither ADMIN nor USER |
| SyncSpec.RoleUpdated | backend-service/src/main/java/com/demo/backend/service/user/WebhookService.java:805-879 | `role.updated` always succeeds; a stored role named by the event gets the payload's `description` when it has one and is otherwise unchanged; an unknown non-empty name is created as `role.created` would; without a name nothing changes; users, organizations and memberships are untouched |
| SyncSpec.RoleDeleted | backend-service/src/main/java/com/demo/backend/service/user/WebhookService.java:887-958 | `role.deleted` fails, changing nothing, exactly when the role it would remove (named, stored, neither ADMIN nor USER) is still referenced by a membership, since the non-null `role_id` key rolls the commit back; otherwise it succeeds; users, organizations and memberships are never touched |
| SyncSpec.PaymentAttempt | backend-service/src/main/java/com/demo/backend/service/user/WebhookService.java:965-1003 | a payment attempt always succeeds and changes at most the user audit log |
| SyncSpec.Apply | backend-service/src/main/java/com/demo/backend/service/user/WebhookService.java:32-1003 | no handler changes anything when it fails |
| UserWebhookService.WebhookService.RecordUserEvent | backend-service/src/main/java/com/demo/backend/service/user/WebhookService.java:496-558 | the stored user log is `Audit.StoreUserEvent` of the old one; nothing else changes |
| UserWebhookService.WebhookService.RecordOrganizationEvent | backend-service/src/main/java/com/demo/backend/service/user/WebhookService.java:560-679 | the stored organization log is `Audit.StoreOrganizationEvent` of the old one; nothing else changes |
| UserWebhookService.WebhookService.ProcessUserCreated | backend-service/src/main/java/com/demo/backend/service/user/WebhookService.java:32-108 | outcome and new tables are exactly `SyncSpec.UserCreated` of the old tables |
| UserWebhookService.WebhookService.ProcessUserUpdated | backend-service/src/main/java/com/demo/backend/service/user/WebhookService.java:111-139 | outcome and new tables are exactly `SyncSpec.UserUpdated` |
| UserWebhookService.WebhookService.ProcessOrganizationCreated | backend-service/src/main/java/com/demo/backend/service/user/WebhookService.java:142-187 | outcome and new tables are exactly `SyncSpec.OrganizationCreated`: success iff `data.id`, and a new clerk id appends the organization row with its name (or "Unnamed Organization"), slug and image |
| UserWebhookService.WebhookService.ProcessOrganizationUpdated | backend-service/src/main/java/com/demo/backend/service/user/WebhookService.java:190-244 | outcome and new tables are exactly `SyncSpec.OrganizationUpdated` |
| UserWebhookService.WebhookService.ProcessOrganizationDeleted | backend-service/src/main/java/com/demo/backend/service/user/WebhookService.java:247-290 | outcome and new tables are exactly `SyncSpec.OrganizationDeleted` |
| UserWebhookService.WebhookService.SaveMembership | backend-service/src/main/java/com/demo/backend/service/user/WebhookService.java:340-362 | the new tables are exactly `SyncSpec.UpsertMembership` of the old ones |
| UserWebhookService.WebhookService.ProcessMembershipCreated | backend-service/src/main/java/com/demo/backend/service/user/WebhookService.java:293-371 | outcome and new tables are exactly `SyncSpec.MembershipCreated` |
| UserWebhookService.WebhookService.ProcessMembershipUpdated | backend-service/src/main/java/com/demo/backend/service/user/WebhookService.java:374-467 | outcome and new tables are exactly `SyncSpec.MembershipUpdated` |
| UserWebhookService.WebhookService.ProcessMembershipDeleted | backend-service/src/main/java/com/demo/backend/service/user/WebhookService.java:470-494 | outcome and new tables are exactly `SyncSpec.MembershipDeleted` |
| UserWebhookService.WebhookService.ProcessEmailCreated | backend-service/src/main/java/com/demo/backend/service/user/WebhookService.java:686-722 | outcome and new tables are exactly `SyncSpec.EmailCreated` |
| UserWebhookService.WebhookService.RecordRoleEvent | backend-service/src/main/java/com/demo/backend/service/user/WebhookService.java:940-951 | a role event is logged to the organization log, the user log, or the user log as "unknown", by which ids the payload has |
| UserWebhookService.WebhookService.ProcessRoleCreated | backend-service/src/main/java/com/demo/backend/service/user/WebhookService.java:729-798 | outcome and new tables are exactly `SyncSpec.RoleCreated`: a new upper-cased role name is added with the created-role description |
| UserWebhookService.WebhookService.ProcessRoleUpdated | backend-service/src/main/java/com/demo/backend/service/user/WebhookService.java:805-879 | outcome and new tables are exactly `SyncSpec.RoleUpdated`: a stored role takes the payload's description when present, and an unknown one is created |
| UserWebhookService.WebhookService.ProcessRoleDeleted | backend-service/src/main/java/com/demo/backend/service/user/WebhookService.java:887-958 | outcome and new tables are exactly `SyncSpec.RoleDeleted` |
| UserWebhookService.WebhookService.ProcessPaymentAttempt | backend-service/src/main/java/com/demo/backend/service/user/WebhookService.java:965-1003 | outcome and new tables are exactly `SyncSpec.PaymentAttempt` |
| SyncProperties.UserAuditKeepsValid | backend-service/src/main/java/com/demo/backend/service/user/WebhookService.java:496-558 | a user audit write keeps every table constraint |
| SyncProperties.OrganizationAuditKeepsValid | backend-service/src/main/java/com/demo/backend/service/user/WebhookService.java:560-679 | an organization audit write keeps every table constraint |
| SyncProperties.AddUserKeepsValid | backend-service/src/main/java/com/demo/backend/service/user/WebhookService.java:81-96 | inserting a user with a new clerk id and the next id keeps the constraints |
| SyncProperties.ReplaceUserKeepsValid | backend-service/src/main/java/com/demo/backend/service/user/WebhookService.java:125-129 | saving a user with the same id and clerk id keeps the constraints |
| SyncProperties.AddOrganizationKeepsValid | backend-service/src/main/java/com/demo/backend/service/user/WebhookService.java:161-175 | inserting an organization with a new clerk id keeps the constraints |
| SyncProperties.ReplaceOrganizationKeepsValid | backend-service/src/main/java/com/demo/backend/service/user/WebhookService.java:219-232 | saving an organization with the same id and clerk id keeps the constraints |
| SyncProperties.DeleteOrganizationKeepsValid | backend-service/src/main/java/com/demo/backend/service/user/WebhookService.java:271-275 | deleting the organization's memberships and then the organization keeps the foreign keys |
| SyncProperties.WithoutOrganizationKeepsMembershipsValid | backend-service/src/main/java/com/demo/backend/service/user/WebhookService.java:271-275 | the remaining memberships still satisfy their constraints and point at existing organizations |
| SyncProperties.OrganizationSurvives | backend-service/src/main/java/com/demo/backend/service/user/WebhookService.java:275 | deleting one organization leaves every other organization in place |
| SyncProperties.UserCreatedKeepsValid | backend-service/src/main/java/com/demo/backend/service/user/WebhookService.java:32-108 | `user.created` keeps every table constraint |
| SyncProperties.UserUpdatedKeepsValid | backend-service/src/main/java/com/demo/backend/service/user/WebhookService.java:111-139 | `user.updated` keeps every table constraint |
| SyncProperties.OrganizationCreatedKeepsValid | backend-service/src/main/java/com/demo/backend/service/user/WebhookService.java:142-187 | `organization.created` keeps every table constraint |
| SyncProperties.OrganizationUpdatedKeepsValid | backend-service/src/main/java/com/demo/backend/service/user/WebhookService.java:190-244 | `organization.updated` keeps every table constraint |
| SyncProperties.OrganizationDeletedKeepsValid | backend-service/src/main/java/com/demo/backend/service/user/WebhookService.java:247-290 | `organization.deleted` keeps every table constraint, foreign keys included |
| SyncProperties.OrganizationRemovedKeepsValid | backend-service/src/main/java/com/demo/backend/service/user/WebhookService.java:265-279 | the cascade delete keeps every table constraint |
| SyncProperties.RekeyMembershipKeepsValid | backend-service/src/main/java/com/demo/backend/service/user/WebhookService.java:344-349 | giving an existing pair row a new role and an unused clerk id keeps the constraints |
| SyncProperties.AddMembershipKeepsValid | backend-service/src/main/java/com/demo/backend/service/user/WebhookService.java:351-360 | inserting a membership for a new pair, with an unused clerk id and existing user and organization, keeps the constraints |
| SyncProperties.UpsertMembershipKeepsValid | backend-service/src/main/java/com/demo/backend/service/user/WebhookService.java:340-362 | the find-by-pair-then-save step keeps one membership per pair and unique clerk ids |
| SyncProperties.MembershipCreatedKeepsValid | backend-service/src/main/java/com/demo/backend/service/user/WebhookService.java:293-371 | `organizationMembership.created` keeps every table constraint |
| SyncProperties.MembershipUpdatedKeepsValid | backend-service/src/main/java/com/demo/backend/service/user/WebhookService.java:374-467 | `organizationMembership.updated` keeps every table constraint |
| SyncProperties.MembershipDeletedKeepsValid | backend-service/src/main/java/com/demo/backend/service/user/WebhookService.java:470-494 | `organizationMembership.deleted` keeps every table constraint |
| SyncProperties.MembershipRemovedKeepsValid | backend-service/src/main/java/com/demo/backend/service/user/WebhookService.java:479-483 | deleting a membership by clerk id keeps the constraints |
| SyncProperties.RemoveMembershipKeepsValid | backend-service/src/main/java/com/demo/backend/service/user/WebhookService.java:481 | deleting any one membership row keeps the constraints |
| SyncProperties.RoleAuditKeepsValid | backend-service/src/main/java/com/demo/backend/service/user/WebhookService.java:940-951 | logging a role event keeps every table constraint |
| SyncProperties.RoleCreatedKeepsValid | backend-service/src/main/java/com/demo/backend/service/user/WebhookService.java:729-798 | `role.created` keeps every table constraint |
| SyncProperties.RoleUpdatedKeepsValid | backend-service/src/main/java/com/demo/backend/service/user/WebhookService.java:805-879 | `role.updated` keeps every table constraint |
| SyncProperties.RoleDeletedKeepsValid | backend-service/src/main/java/com/demo/backend/service/user/WebhookService.java:887-958 | `role.deleted` keeps every table constraint, the membership-to-role foreign key included |
| SyncProperties.InformationalEventsKeepValid | backend-service/src/main/java/com/demo/backend/service/user/WebhookService.java:686-722 | `email.created` and payment events keep every table constraint |
| SyncProperties.ApplyKeepsValid | backend-service/src/main/java/com/demo/backend/service/user/WebhookService.java:32-1003 | every handler keeps every table constraint, whatever the payload |
| SyncProperties.UserAndOrganizationHandlersKeepValid | backend-service/src/main/java/com/demo/backend/service/user/WebhookService.java:32-290 | the user and organization handlers keep every table constraint |
| SyncProperties.MembershipHandlersKeepValid | backend-service/src/main/java/com/demo/backend/service/user/WebhookService.java:293-494 | the membership handlers keep every table constraint |
| SyncProperties.OtherHandlersKeepValid | backend-service/src/main/java/com/demo/backend/service/user/WebhookService.java:686-1003 | the email, role and payment handlers keep every table constraint |
| SyncProperties.AuditNeverDecides | backend-service/src/main/java/com/demo/backend/service/user/WebhookService.java:496-679 | with transactions left out, audit-store failures and the clock never change a handler's outcome or the entity tables |
| SyncProperties.UserAndOrganizationAuditNeverDecides | backend-service/src/main/java/com/demo/backend/service/user/WebhookService.java:32-290 | the same, for the user and organization handlers |
| SyncProperties.MembershipAuditNeverDecides | backend-service/src/main/java/com/demo/backend/service/user/WebhookService.java:293-494 | the same, for the membership handlers |
| SyncProperties.OtherAuditNeverDecides | backend-service/src/main/java/com/demo/backend/service/user/WebhookService.java:686-1003 | the same, for the email, role and payment handlers |
| SyncProperties.UserCreatedTwice | backend-service/src/main/java/com/demo/backend/service/user/WebhookService.java:80-86 | redelivering `user.created` gives the same outcome and entities; with a stable event id it changes nothing at all |
| SyncProperties.OrganizationCreatedTwice | backend-service/src/main/java/com/demo/backend/service/user/WebhookService.java:161-166 | redelivering `organization.created` gives the same outcome and entities; with a stable event id it changes nothing at all |
| SyncProperties.MembershipCreatedTwice | backend-service/src/main/java/com/demo/backend/service/user/WebhookService.java:320-323 | after a successful `organizationMembership.created`, redelivery is a no-op, not even an audit row |
| SyncProperties.UpsertRecordsClerkId | backend-service/src/main/java/com/demo/backend/service/user/WebhookService.java:340-362 | after the upsert the clerk membership id is stored |
| SyncProperties.UpsertSetsPair | backend-service/src/main/java/com/demo/backend/service/user/WebhookService.java:340-362 | after the upsert the pair has a row, every row of the pair carries the new role and clerk id, and rows of other pairs survive |
| SyncProperties.MembershipDeletedRemovesIt | backend-service/src/main/java/com/demo/backend/service/user/WebhookService.java:470-494 | after `organizationMembership.deleted` no row has that clerk id, and every other row survives |
| SyncProperties.MembershipRemovedRemovesIt | backend-service/src/main/java/com/demo/backend/service/user/WebhookService.java:479-483 | removing by clerk id removes exactly that row |
| SyncProperties.OrganizationDeletedCascades | backend-service/src/main/java/com/demo/backend/service/user/WebhookService.java:265-282 | `organization.deleted` always succeeds; deleting a known organization removes it and exactly its memberships; an unknown one changes no entity; with a stable event id and the store up, the event id is recorded |
| SyncProperties.RoleDeletedKeepsBuiltins | backend-service/src/main/java/com/demo/backend/service/user/WebhookService.java:926-935 | `role.deleted` never removes ADMIN or USER, never a role a membership still uses, and removes at most the upper-cased named role |
| SyncProperties.RoleCreatedAddsUpperCased | backend-service/src/main/java/com/demo/backend/service/user/WebhookService.java:767-777 | `role.created` keeps every role and adds only upper-cased names; the upper-cased requested name is stored afterwards, and when it is new its description is "Role created from Clerk webhook" |
| SyncProperties.UpdatesOfUnknownEntitiesCreate | backend-service/src/main/java/com/demo/backend/service/user/WebhookService.java:116-436 | an update of an unknown user, organization or membership behaves like the matching create |
| SyncProperties.UserUpdatedKeepsIdentity | backend-service/src/main/java/com/demo/backend/service/user/WebhookService.java:116-129 | `user.updated` of a known user: first name, last name and image each take the payload's value when the field is present and keep the old one otherwise; id, clerk id and email stay; no other row and not the counter change |
| SyncProperties.OrganizationUpdatedKeepsIdentity | backend-service/src/main/java/com/demo/backend/service/user/WebhookService.java:216-230 | `organization.updated` of a known organization succeeds; the name is the payload's when present and the old one otherwise, slug and image likewise; id and clerk org id stay; no other row and not the counter change |
| SyncProperties.UserCreatedAddsIff | backend-service/src/main/java/com/demo/backend/service/user/WebhookService.java:36-96 | `user.created` succeeds exactly when `data.id` is present; it adds one user exactly when the email is found and non-empty and the clerk id is new, and that user has the next id, the clerk id, the email and the names and image from the payload; otherwise users and counter are unchanged |
| SyncProperties.MembershipCreatedGrantsRequestedRole | backend-service/src/main/java/com/demo/backend/service/user/WebhookService.java:325-362 | a successful `organizationMembership.created` of a new membership id leaves a row for the user and the organization with the role `RoleNameOf` names, upper-cased, or USER when that role does not exist |
| SyncProperties.MembershipUpdatedSetsRequestedRole | backend-service/src/main/java/com/demo/backend/service/user/WebhookService.java:437-451 | a successful `organizationMembership.updated` of a known membership sets only that row's role, to the resolved requested role |
| LegacySyncSpec.EventIdOf | backend-service/src/main/java/com/demo/backend/service/WebhookService.java:226-228 | the legacy audit event id is the top-level `id`, when present |
| LegacySyncSpec.StoreUserEvent | backend-service/src/main/java/com/demo/backend/service/WebhookService.java:222-245 | one row or none; a row exactly when the store is up and the top-level id is new |
| LegacySyncSpec.StoreOrganizationEvent | backend-service/src/main/java/com/demo/backend/service/WebhookService.java:247-271 | one row or none; a row exactly when the store is up and the top-level id is new |
| LegacySyncSpec.EmailOf | backend-service/src/main/java/com/demo/backend/service/WebhookService.java:36-38 | no `email_addresses` array (or an empty one) gives no email; a first entry with `email_address` gives its text; a first entry without it gives `NullEmail`, the dereference of the missing node |
| LegacySyncSpec.RoleNameOf | backend-service/src/main/java/com/demo/backend/service/WebhookService.java:140 | the role name is `data.role` when present, else "USER" |
| LegacySyncSpec.UserCreated | backend-service/src/main/java/com/demo/backend/service/WebhookService.java:32-69 | legacy `user.created` succeeds exactly when `data.id` is present and the first address is not missing its `email_address`, and a failure changes nothing; an email and a new clerk id append one user with that clerk id, the email, names and image, and advance the id counter, after which the user is known; otherwise the users are unchanged; organizations, memberships and roles are untouched |
| LegacySyncSpec.UserUpdated | backend-service/src/main/java/com/demo/backend/service/WebhookService.java:72-100 | legacy `user.updated`: a failure changes nothing; organizations, memberships and roles are untouched (the fallback to `user.created` and the field overwrite are stated by `LegacySyncProperties.UserUpdatedOfUnknownUserCreates` and `LegacySyncProperties.UserUpdatedKeepsIdentity`) |
| LegacySyncSpec.OrganizationCreated | backend-service/src/main/java/com/demo/backend/service/WebhookService.java:103-131 | legacy `organization.created` succeeds exactly when `data.id` is present, and a failure changes nothing; afterwards the organization is known; a new clerk id appends one row with that id, the name or "Unnamed Organization", the slug and the image; a known id changes nothing at all; users, memberships and roles are untouched |
| LegacySyncSpec.MembershipCreated | backend-service/src/main/java/com/demo/backend/service/WebhookService.java:134-193 | legacy `organizationMembership.created`: a failure changes nothing; users, organizations and roles are untouched |
| LegacySyncSpec.MembershipDeleted | backend-service/src/main/java/com/demo/backend/service/WebhookService.java:196-220 | legacy `organizationMembership.deleted`: a failure changes nothing; only memberships and the organization log change |
| LegacySyncSpec.Apply | backend-service/src/main/java/com/demo/backend/service/WebhookService.java:32-220 | no legacy handler changes anything when it fails |
| LegacyWebhookService.WebhookService.RecordUserEvent | backend-service/src/main/java/com/demo/backend/service/WebhookService.java:222-245 | the stored user log is `LegacySyncSpec.StoreUserEvent` of the old one |
| LegacyWebhookService.WebhookService.RecordOrganizationEvent | backend-service/src/main/java/com/demo/backend/service/WebhookService.java:247-271 | the stored organization log is `LegacySyncSpec.StoreOrganizationEvent` of the old one |
| LegacyWebhookService.WebhookService.ProcessUserCreated | backend-service/src/main/java/com/demo/backend/service/WebhookService.java:32-69 | outcome and new tables are exactly `LegacySyncSpec.UserCreated`: an email and a new clerk id append the user with that clerk id |
| LegacyWebhookService.WebhookService.ProcessUserUpdated | backend-service/src/main/java/com/demo/backend/service/WebhookService.java:72-100 | outcome and new tables are exactly `LegacySyncSpec.UserUpdated` |
| LegacyWebhookService.WebhookService.ProcessOrganizationCreated | backend-service/src/main/java/com/demo/backend/service/WebhookService.java:103-131 | outcome and new tables are exactly `LegacySyncSpec.OrganizationCreated`: a new clerk id appends the organization row |
| LegacyWebhookService.WebhookService.SaveMembership | backend-service/src/main/java/com/demo/backend/service/WebhookService.java:162-184 | the new tables are exactly `SyncSpec.UpsertMembership` of the old ones |
| LegacyWebhookService.WebhookService.ProcessMembershipCreated | backend-service/src/main/java/com/demo/backend/service/WebhookService.java:134-193 | outcome and new tables are exactly `LegacySyncSpec.MembershipCreated` |
| LegacyWebhookService.WebhookService.ProcessMembershipDeleted | backend-service/src/main/java/com/demo/backend/service/WebhookService.java:196-220 | outcome and new tables are exactly `LegacySyncSpec.MembershipDeleted` |
| LegacySyncProperties.StoreUserEventKeepsIdsUnique | backend-service/src/main/java/com/demo/backend/service/WebhookService.java:226-240 | legacy audit writes keep recorded event ids unique |
| LegacySyncProperties.StoreOrganizationEventKeepsIdsUnique | backend-service/src/main/java/com/demo/backend/service/WebhookService.java:251-266 | legacy audit writes keep recorded event ids unique |
| LegacySyncProperties.StoreUserEventTwiceWritesOnce | backend-service/src/main/java/com/demo/backend/service/WebhookService.java:226-240 | a redelivered event with an `id` adds no second row |
| LegacySyncProperties.StoreOrganizationEventTwiceWritesOnce | backend-service/src/main/java/com/demo/backend/service/WebhookService.java:251-266 | a redelivered event with an `id` adds no second row |
| LegacySyncProperties.UserAuditKeepsValid | backend-service/src/main/java/com/demo/backend/service/WebhookService.java:222-245 | a legacy user audit write keeps every table constraint |
| LegacySyncProperties.OrganizationAuditKeepsValid | backend-service/src/main/java/com/demo/backend/service/WebhookService.java:247-271 | a legacy organization audit write keeps every table constraint |
| LegacySyncProperties.ApplyKeepsValid | backend-service/src/main/java/com/demo/backend/service/WebhookService.java:32-220 | every legacy handler keeps every table constraint |
| LegacySyncProperties.UserUpdatedKeepsValid | backend-service/src/main/java/com/demo/backend/service/WebhookService.java:72-100 | legacy `user.updated` keeps every table constraint |
| LegacySyncProperties.UserUpdatedOfUnknownUserCreates | backend-service/src/main/java/com/demo/backend/service/WebhookService.java:77-83 | legacy `user.updated` of an unknown user behaves exactly as legacy `user.created` |
| LegacySyncProperties.UserUpdatedKeepsIdentity | backend-service/src/main/java/com/demo/backend/service/WebhookService.java:85-90 | legacy `user.updated` of a known user changes only that row's names and image, each overwritten only when the field is present; id, clerk id and email stay |
| LegacySyncProperties.OrganizationCreatedKeepsValid | backend-service/src/main/java/com/demo/backend/service/WebhookService.java:103-131 | legacy `organization.created` keeps every table constraint |
| LegacySyncProperties.MembershipCreatedKeepsValid | backend-service/src/main/java/com/demo/backend/service/WebhookService.java:134-193 | legacy `organizationMembership.created` keeps one membership per pair and every other constraint |
| LegacySyncProperties.MembershipDeletedKeepsValid | backend-service/src/main/java/com/demo/backend/service/WebhookService.java:196-220 | legacy `organizationMembership.deleted` keeps every table constraint |
| LegacySyncProperties.UserCreatedKeepsValid | backend-service/src/main/java/com/demo/backend/service/WebhookService.java:32-69 | legacy `user.created` keeps every table constraint |
| LegacySyncProperties.SkippedEventsLeaveNoTrace | backend-service/src/main/java/com/demo/backend/service/WebhookService.java:40-112 | a user event without an email, an existing user, or an existing organization changes nothing, not even the audit log |
| LegacySyncProperties.CreatedTwiceIsNoOp | backend-service/src/main/java/com/demo/backend/service/WebhookService.java:46-112 | redelivering a successful legacy create is a no-op |
| LegacySyncProperties.EmailOnlyFromFirstAddress | backend-service/src/main/java/com/demo/backend/service/WebhookService.java:36-38 | a user the legacy handler creates has the first entry's `email_address` |
| LegacySyncProperties.PrimaryEmailOnlyDiffers | backend-service/src/main/java/com/demo/backend/service/WebhookService.java:36-43 | a payload with only `primary_email_address` creates a user in the current service and nothing in the legacy one |
| LegacySyncProperties.MembershipHandlersAgree | backend-service/src/main/java/com/demo/backend/service/WebhookService.java:134-220 | both services delete memberships identically, and create them identically when they resolve the same role name |
| LegacySyncProperties.RoleNameIgnoresMetadata | backend-service/src/main/java/com/demo/backend/service/WebhookService.java:140 | without `data.role` the legacy service asks for USER, while the current one reads `public_metadata.role` |
| WebhookController.Header | backend-service/src/main/java/com/demo/backend/controller/user/WebhookController.java:58 | a header is found exactly when the request carries that name |
| WebhookController.Fallback | backend-service/src/main/java/com/demo/backend/controller/user/WebhookController.java:57-79 | a header is found exactly when it is bound or sent under either spelling, and a bound value wins |
| WebhookController.ResolveHeaders | backend-service/src/main/java/com/demo/backend/controller/user/WebhookController.java:57-79 | each of the three Svix headers is resolved by `Fallback` |
| WebhookController.XorZero | backend-service/src/main/java/com/demo/backend/controller/user/WebhookController.java:223 | the XOR of two character codes is zero exactly when they are equal |
| WebhookController.OrZero | backend-service/src/main/java/com/demo/backend/controller/user/WebhookController.java:223 | the OR accumulator is zero exactly when both inputs are zero |
| WebhookController.ConstantTimeEquals | backend-service/src/main/java/com/demo/backend/controller/user/WebhookController.java:216-226 | the accumulator loop returns true exactly when the two strings are equal |
| WebhookController.VerifySignature | backend-service/src/main/java/com/demo/backend/controller/user/WebhookController.java:144-211 | no secret accepts everything; with a secret, a missing header rejects |
| WebhookController.SecretBytes | backend-service/src/main/java/com/demo/backend/controller/user/WebhookController.java:160-169 | a secret starting with `whsec_` is the Base64 decoding of what follows the six-character prefix, with a decoding failure passed on; any other secret is its UTF-8 bytes |
| WebhookController.SignedContent | backend-service/src/main/java/com/demo/backend/controller/user/WebhookController.java:184 | the signed text is the id, a dot, the timestamp, a dot and the body |
| WebhookController.SignedContentIsUnambiguous | backend-service/src/main/java/com/demo/backend/controller/user/WebhookController.java:184 | with dot-free ids and timestamps, equal signed texts mean equal id, timestamp and body |
| WebhookController.AcceptedMeansSigned | backend-service/src/main/java/com/demo/backend/controller/user/WebhookController.java:151-205 | an accepted request has all three headers, and its signature header splits into `v1` and Base64(HMAC-SHA256(key, id.timestamp.body)) |
| WebhookController.SignedIsAccepted | backend-service/src/main/java/com/demo/backend/controller/user/WebhookController.java:160-205 | `v1,` followed by the expected signature is accepted |
| WebhookController.MultiSignatureHeaderRejected | backend-service/src/main/java/com/demo/backend/controller/user/WebhookController.java:175-179 | a header listing two signatures is rejected, even when one is right |
| WebhookController.RouteOf | backend-service/src/main/java/com/demo/backend/controller/user/WebhookController.java:100-121 | exactly five event types are routed, each to its own handler (`user.created` to user.created, and so on) |
| WebhookController.WebhookTransition | backend-service/src/main/java/com/demo/backend/controller/user/WebhookController.java:45-130 | the response is 200, 401 or 500, and any non-200 response leaves the tables unchanged |
| WebhookController.Dispatched | backend-service/src/main/java/com/demo/backend/controller/user/WebhookController.java:100-129 | after the type is read, the response is 200 or 500, and a 500 leaves the tables unchanged |
| WebhookController.ResponsesAndState | backend-service/src/main/java/com/demo/backend/controller/user/WebhookController.java:86-129 | a 401 means "Invalid signature" with a secret set; a 200 means the body parsed with a type; an unrouted type answers "Event ignored: <type>"; a routed one applies its handler |
| WebhookController.HandleKeepsValid | backend-service/src/main/java/com/demo/backend/controller/user/WebhookController.java:45-130 | any request keeps every table constraint |
| WebhookController.WebhookController.HandleClerkWebhook | backend-service/src/main/java/com/demo/backend/controller/user/WebhookController.java:45-130 | response and new tables are exactly `WebhookTransition` of the old tables |
| WebhookController.WebhookController.Dispatch | backend-service/src/main/java/com/demo/backend/controller/user/WebhookController.java:100-129 | response and new tables are exactly `Dispatched` of the old tables |
| Common.ToUpper | backend-service/src/main/java/com/demo/backend/service/user/WebhookService.java:333 | upper-casing (of ASCII letters) keeps the length, maps each letter a-z to A-Z and keeps every other character |
| Common.ToUpperIdempotent | backend-service/src/main/java/com/demo/backend/service/user/AuthorizationService.java:193 | upper-casing twice is upper-casing once |
| Common.SplitAllJoin | api-gateway/src/main/java/com/demo/gateway/config/JwtAuthenticationFilter.java:122 | splitting at every separator undoes joining pieces that do not hold it, empty pieces included |
| Common.JavaSplitJoin | api-gateway/src/main/java/com/demo/gateway/config/JwtAuthenticationFilter.java:122 | splitting parts joined by a separator that none contains, with a non-empty last part, gives back the parts |
| Authorization.RepairMembershipIdIsMarked | backend-service/src/main/java/com/demo/backend/service/user/AuthorizationService.java:213 | the repair membership id starts with `mem_fix_` and has at least five more characters (three numbers, two underscores) |
| Authorization.GetUserByClerkId | backend-service/src/main/java/com/demo/backend/service/user/AuthorizationService.java:138-148 | a stored user with that clerk id; empty exactly when none has it |
| Authorization.HasAccessToOrganization | backend-service/src/main/java/com/demo/backend/service/user/AuthorizationService.java:37-48 | true exactly when the user exists and has a membership in the organization |
| Authorization.HasRole | backend-service/src/main/java/com/demo/backend/service/user/AuthorizationService.java:53-68 | true exactly when the user has a membership in the organization with the upper-cased role name |
| Authorization.IsAdmin | backend-service/src/main/java/com/demo/backend/service/user/AuthorizationService.java:73-75 | true exactly when the user has an ADMIN membership in the organization |
| Authorization.GetMembership | backend-service/src/main/java/com/demo/backend/service/user/AuthorizationService.java:123-133 | present exactly when the user has access, and then it is the user's membership there |
| Authorization.AdminFoundIffSomewhere | backend-service/src/main/java/com/demo/backend/service/user/AuthorizationService.java:96-101 | the admin query is non-empty exactly when the user has an ADMIN membership somewhere |
| Authorization.RetryAdminCheck | backend-service/src/main/java/com/demo/backend/service/user/AuthorizationService.java:155-166 | the retry answers true exactly when its count query succeeds and an ADMIN membership exists |
| Authorization.IsAdminInAnyOrganization | backend-service/src/main/java/com/demo/backend/service/user/AuthorizationService.java:85-118 | an unknown user is not admin; only a query error other than a prepared-statement conflict propagates; true implies an ADMIN membership |
| Authorization.UnknownUserIsDenied | backend-service/src/main/java/com/demo/backend/service/user/AuthorizationService.java:37-127 | for an unknown user every check is false and no membership is returned |
| Authorization.HasRoleIgnoresCase | backend-service/src/main/java/com/demo/backend/service/user/AuthorizationService.java:60-64 | role names that upper-case alike give the same answer |
| Authorization.AdminInLowerCaseIsAdmin | backend-service/src/main/java/com/demo/backend/service/user/AuthorizationService.java:73-75 | `hasRole(…, "admin")` equals `isAdmin` |
| Authorization.HasRoleIsMembershipRole | backend-service/src/main/java/com/demo/backend/service/user/AuthorizationService.java:53-133 | with one membership per pair, `hasRole` holds exactly when `getMembership` returns one with that role; it implies access |
| Authorization.AdminAnywhereIsAdminOfSome | backend-service/src/main/java/com/demo/backend/service/user/AuthorizationService.java:85-118 | when a query answers, admin-anywhere holds exactly when `isAdmin` holds for some organization |
| Authorization.FailedRetryDenies | backend-service/src/main/java/com/demo/backend/service/user/AuthorizationService.java:109-166 | a prepared-statement conflict whose retry fails answers false |
| Authorization.PutRole | backend-service/src/main/java/com/demo/backend/service/user/AuthorizationService.java:199-225 | an existing pair keeps the row count and counter; otherwise exactly one row is appended with the next id |
| Authorization.AssignRole | backend-service/src/main/java/com/demo/backend/service/user/AuthorizationService.java:179-228 | false, with nothing changed, exactly when the user, organization or upper-cased role is missing; true writes the role for the pair |
| Authorization.PutRoleKeepsValid | backend-service/src/main/java/com/demo/backend/service/user/AuthorizationService.java:199-225 | writing the pair's role keeps every table constraint |
| Authorization.PutRoleSetsPair | backend-service/src/main/java/com/demo/backend/service/user/AuthorizationService.java:199-225 | after the write, the pair's row carries the new role |
| Authorization.ExistingMembershipOnlyChangesRole | backend-service/src/main/java/com/demo/backend/service/user/AuthorizationService.java:202-210 | with an existing membership, only that membership's role changes |
| Authorization.MissingMembershipIsCreated | backend-service/src/main/java/com/demo/backend/service/user/AuthorizationService.java:211-225 | without one, a membership with id `mem_fix_<user>_<org>_<millis>` is appended; a clash with that id fails |
| Authorization.UpdateUserRoleKeepsValid | backend-service/src/main/java/com/demo/backend/service/user/AuthorizationService.java:179-228 | the role repair keeps every table constraint |
| Authorization.PairRowIsOnlyRow | backend-service/src/main/java/com/demo/backend/entity/user/Membership.java:12 | under the pair constraint, every row of the pair is the one the lookup finds |
| Authorization.RepairLeavesOneMembershipWithRole | backend-service/src/main/java/com/demo/backend/service/user/AuthorizationService.java:199-227 | after a true result the user has exactly one membership in the organization, and it has the requested role |
| Authorization.RepairIsIdempotent | backend-service/src/main/java/com/demo/backend/service/user/AuthorizationService.java:179-228 | repeating a successful repair, at any later time, changes nothing |
| Authorization.AuthorizationService.UpdateUserRole | backend-service/src/main/java/com/demo/backend/service/user/AuthorizationService.java:179-228 | result and new tables are exactly `AssignRole` of the old tables |
| LegacyAuthorization.GetUserByClerkId | backend-service/src/main/java/com/demo/backend/service/AuthorizationService.java:87-89 | a stored user with that clerk id; empty exactly when none has it |
| LegacyAuthorization.HasAccessToOrganization | backend-service/src/main/java/com/demo/backend/service/AuthorizationService.java:29-40 | true exactly when the user exists and has a membership in the organization |
| LegacyAuthorization.HasRole | backend-service/src/main/java/com/demo/backend/service/AuthorizationService.java:45-60 | true exactly when that membership has the upper-cased role name |
| LegacyAuthorization.IsAdmin | backend-service/src/main/java/com/demo/backend/service/AuthorizationService.java:65-67 | true exactly when that membership is ADMIN |
| LegacyAuthorization.GetMembership | backend-service/src/main/java/com/demo/backend/service/AuthorizationService.java:72-82 | present exactly when the user has access, and then it is the user's membership there |
| LegacyAuthorization.UnknownUserIsDenied | backend-service/src/main/java/com/demo/backend/service/AuthorizationService.java:30-76 | for an unknown user every check is false and no membership is returned |
| LegacyAuthorization.AgreesWithCurrent | backend-service/src/main/java/com/demo/backend/service/AuthorizationService.java:29-89 | every legacy query answers as the current service does |
| OrganizationService.Wrap | backend-service/src/main/java/com/demo/backend/service/user/OrganizationService.java:202 | 32-bit two's-complement wrap-around: in-range values are kept, others move by a multiple of 2^32 |
| OrganizationService.Saturate | backend-service/src/main/java/com/demo/backend/service/user/OrganizationService.java:231 | a narrowing cast keeps in-range values |
| OrganizationService.Page | backend-service/src/main/java/com/demo/backend/service/user/OrganizationService.java:202-206 | the page never holds more than `size` members, and a non-empty page is a contiguous slice starting at the wrapped `page*size` |
| OrganizationService.Window | backend-service/src/main/java/com/demo/backend/service/user/OrganizationService.java:203-205 | a window holds only listed members |
| OrganizationService.PageIsSlice | backend-service/src/main/java/com/demo/backend/service/user/OrganizationService.java:202-206 | without overflow, the page is the slice from `page*size` of length at most `size` |
| OrganizationService.NegativePageThrows | backend-service/src/main/java/com/demo/backend/service/user/OrganizationService.java:202-205 | a negative page number makes `subList` throw on a non-empty list |
| OrganizationService.OverflowingPageWraps | backend-service/src/main/java/com/demo/backend/service/user/OrganizationService.java:202 | page 65536 of size 65536 wraps to offset 0 and returns the first page |
| OrganizationService.TotalPages | backend-service/src/main/java/com/demo/backend/service/user/OrganizationService.java:231 | with a positive size the page count is non-negative; with size 0 it is 0 for no members (NaN cast) and `Integer.MAX_VALUE` otherwise (infinity cast); a negative size gives a count of at most 0 |
| OrganizationService.TotalPagesIsCeiling | backend-service/src/main/java/com/demo/backend/service/user/OrganizationService.java:231 | with a positive size, the page count is the ceiling of members divided by size |
| OrganizationService.CeilingDivision | backend-service/src/main/java/com/demo/backend/service/user/OrganizationService.java:231 | `(total + size - 1) / size` is the least number of pages covering `total` |
| OrganizationService.View | backend-service/src/main/java/com/demo/backend/service/user/OrganizationService.java:105-115 | the response copies the organization and counts its memberships |
| OrganizationService.UserRole | backend-service/src/main/java/com/demo/backend/service/user/OrganizationService.java:98-103 | present exactly when the caller has a membership in the organization, and then that membership's role name |
| OrganizationService.GetOrganizationById | backend-service/src/main/java/com/demo/backend/service/user/OrganizationService.java:79-116 | access is checked first; with access, success exactly when the organization exists, carrying the caller's role |
| OrganizationService.GetOrganizationByClerkId | backend-service/src/main/java/com/demo/backend/service/user/OrganizationService.java:127-164 | an unknown clerk id is not found regardless of access; otherwise success exactly when the caller has access |
| OrganizationService.ByClerkIdIsById | backend-service/src/main/java/com/demo/backend/service/user/OrganizationService.java:79-164 | for a known organization, the lookup by clerk id answers as the lookup by id |
| OrganizationService.MembersWithRelations | backend-service/src/main/java/com/demo/backend/service/user/OrganizationService.java:198 | the organization's memberships whose user and role rows exist |
| OrganizationService.Member | backend-service/src/main/java/com/demo/backend/service/user/OrganizationService.java:210-222 | a member entry carries the membership's id, clerk id, role name and user |
| OrganizationService.Members | backend-service/src/main/java/com/demo/backend/service/user/OrganizationService.java:209-224 | one entry per membership, in order |
| OrganizationService.GetOrganizationMembers | backend-service/src/main/java/com/demo/backend/service/user/OrganizationService.java:177-233 | a non-member is refused before the organization is looked up; a page has at most `size` entries; page, size and member count are echoed, and the page count is `TotalPages` of the member count and size |
| OrganizationService.NonMembersCannotProbe | backend-service/src/main/java/com/demo/backend/service/user/OrganizationService.java:83-190 | a non-member gets the same answer for any two organization ids, existing or not |
| OrganizationService.MembersPageIsSlice | backend-service/src/main/java/com/demo/backend/service/user/OrganizationService.java:198-224 | without overflow, the members are the mapped window from `page*size`, and the page count is the least number of pages of `size` that hold every member |
| OrganizationService.MembersOfPage | backend-service/src/main/java/com/demo/backend/service/user/OrganizationService.java:198-224 | whenever paging does not throw, the members are the mapped page |
| OrganizationService.Listing | backend-service/src/main/java/com/demo/backend/service/user/OrganizationService.java:53-65 | an entry carries the organization id and the membership's role |
| OrganizationService.GetUserOrganizations | backend-service/src/main/java/com/demo/backend/service/user/OrganizationService.java:41-68 | an unknown user is an error; otherwise one entry per fetched membership, each with its organization and role |
| OrganizationService.OneEntryPerMembership | backend-service/src/main/java/com/demo/backend/service/user/OrganizationService.java:45-67 | the list has one entry for each of the user's memberships, each carrying that membership's organization and role |
| UserService.WithDefaultSort | backend-service/src/main/java/com/demo/backend/service/user/UserService.java:58-65 | an unsorted request becomes createdAt descending; page and size are kept; a sorted request is unchanged |
| UserService.DefaultSortIsIdempotent | backend-service/src/main/java/com/demo/backend/service/user/UserService.java:58-65 | applying the default sort twice is applying it once |
| UserService.MapToResponse | backend-service/src/main/java/com/demo/backend/service/user/UserService.java:133-142 | the response copies id, email, names and image |
| UserService.ResponseHidesClerkId | backend-service/src/main/java/com/demo/backend/service/user/UserService.java:133-142 | the response does not depend on the clerk user id |
| UserService.Info | backend-service/src/main/java/com/demo/backend/service/user/UserService.java:154-165 | a listed membership carries its id, organization and role name |
| UserService.Infos | backend-service/src/main/java/com/demo/backend/service/user/UserService.java:154-172 | exactly the memberships that map without error are listed |
| UserService.MapToUserWithRoles | backend-service/src/main/java/com/demo/backend/service/user/UserService.java:148-204 | totalOrganizations counts the fetched memberships; isAdmin holds exactly when one is ADMIN; on failure the summary is empty, 0 and false |
| UserService.SummaryAgreesWithAuthorization | backend-service/src/main/java/com/demo/backend/service/user/UserService.java:175-186 | the summary's isAdmin is the admin-anywhere check, and totalOrganizations counts every membership of the user |
| UserService.AdminGate | backend-service/src/main/java/com/demo/backend/service/user/UserService.java:50-55 | the gate lets a caller through exactly when the caller is admin somewhere |
| UserService.GetAllUsers | backend-service/src/main/java/com/demo/backend/service/user/UserService.java:46-79 | granted exactly to admins; the result maps each user of the default-sorted page |
| UserService.GetAllUsersWithRoles | backend-service/src/main/java/com/demo/backend/service/user/UserService.java:94-127 | granted exactly to admins; one entry for each user of the default-sorted page, in order, and entry i is `MapToUserWithRoles` of user i (its memberships, `totalOrganizations` and `isAdmin`) |
| UserService.NonAdminsAreDenied | backend-service/src/main/java/com/demo/backend/service/user/UserService.java:50-103 | callers who are not admin anywhere get AccessDenied from both listings |
| JwtFilter.IsPublicPath | api-gateway/src/main/java/com/demo/gateway/config/JwtAuthenticationFilter.java:63-77 | every public path is under `/api/`; anything under `/api/webhooks` or `/api/payments` and exactly `/api/health` are public, and nothing else |
| JwtFilter.BearerToken | api-gateway/src/main/java/com/demo/gateway/config/JwtAuthenticationFilter.java:80-86 | a token exactly when the Authorization header starts with "Bearer ", and the header is the prefix followed by the token |
| JwtFilter.BearerRoundTrip | api-gateway/src/main/java/com/demo/gateway/config/JwtAuthenticationFilter.java:80-86 | "Bearer " followed by a token yields that token |
| JwtFilter.KidText | api-gateway/src/main/java/com/demo/gateway/config/JwtAuthenticationFilter.java:172-173 | a key's kid is present exactly when the entry has `kid` |
| JwtFilter.Scan | api-gateway/src/main/java/com/demo/gateway/config/JwtAuthenticationFilter.java:170-184 | the loop stops at the first entry whose kid matches, or at the first entry without a kid; otherwise nothing matches |
| JwtFilter.JwksKeys | api-gateway/src/main/java/com/demo/gateway/config/JwtAuthenticationFilter.java:161-207 | a non-200 reply fails with its status; success means a 200 reply whose `keys` is an array |
| JwtFilter.JwkKey | api-gateway/src/main/java/com/demo/gateway/config/JwtAuthenticationFilter.java:213-226 | a key without `n` or `e` throws; otherwise the RSA key built from them |
| JwtFilter.KeyLookup | api-gateway/src/main/java/com/demo/gateway/config/JwtAuthenticationFilter.java:154-187 | a cache hit returns the cached key; a miss caches the first matching key; failure leaves the cache unchanged; no match is "Key not found in JWKS" |
| JwtFilter.LookupThenHit | api-gateway/src/main/java/com/demo/gateway/config/JwtAuthenticationFilter.java:156-182 | after a successful lookup, the next lookup of that kid is a hit, whatever the key server says |
| JwtFilter.FirstMatchWins | api-gateway/src/main/java/com/demo/gateway/config/JwtAuthenticationFilter.java:170-184 | the first entry with the kid is the one chosen |
| JwtFilter.ScanSkips | api-gateway/src/main/java/com/demo/gateway/config/JwtAuthenticationFilter.java:170-184 | entries before the first match do not affect the result |
| JwtFilter.TokenCheck | api-gateway/src/main/java/com/demo/gateway/config/JwtAuthenticationFilter.java:120-149 | a token not of three segments fails before any key lookup; success means three segments, a header that decodes to JSON with a `kid`, the key `KeyLookup` finds for that `kid` (and the resulting cache), a signature and issuer checked with that key, and no expiry |
| JwtFilter.WithIdentity | api-gateway/src/main/java/com/demo/gateway/config/JwtAuthenticationFilter.java:102-105 | X-User-Id is the subject; X-Org-Id is the org claim or ""; other headers are kept |
| JwtFilter.Admission | api-gateway/src/main/java/com/demo/gateway/config/JwtAuthenticationFilter.java:58-115 | public paths pass unchanged; otherwise a request passes exactly when it has a bearer token that checks and a subject, and then carries the identity headers; every refusal is the fixed 401 |
| JwtFilter.IdentityCannotBeSpoofed | api-gateway/src/main/java/com/demo/gateway/config/JwtAuthenticationFilter.java:93-105 | a client-set X-User-Id changes neither admission nor the forwarded identity |
| JwtFilter.PublicPathsKeepClientHeaders | api-gateway/src/main/java/com/demo/gateway/config/JwtAuthenticationFilter.java:63-77 | webhook paths are forwarded untouched, headers included |
| JwtFilter.ExpiredTokenIsRejected | api-gateway/src/main/java/com/demo/gateway/config/JwtAuthenticationFilter.java:144-146 | a correctly signed token whose exp has passed is refused with "JWT expired" and a 401 |
| JwtFilter.Expired | api-gateway/src/main/java/com/demo/gateway/config/JwtAuthenticationFilter.java:144-146 | a token without `exp` never expires; one whose `exp` is now or later is not expired; an expired token has an `exp` strictly before now |
| JwtFilter.ThreeSegmentsPass | api-gateway/src/main/java/com/demo/gateway/config/JwtAuthenticationFilter.java:122-125 | `header.payload.signature` with a non-empty signature splits into three |
| JwtFilter.EmptySignatureFailsFormat | api-gateway/src/main/java/com/demo/gateway/config/JwtAuthenticationFilter.java:122-125 | an unsecured token with an empty signature splits into two and is refused |
| JwtFilter.JwtAuthenticationFilter.GetPublicKey | api-gateway/src/main/java/com/demo/gateway/config/JwtAuthenticationFilter.java:154-187 | result and new cache are exactly `KeyLookup` of the old cache |
| JwtFilter.JwtAuthenticationFilter.ValidateJwt | api-gateway/src/main/java/com/demo/gateway/config/JwtAuthenticationFilter.java:120-149 | claims and new cache are exactly `TokenCheck` of the old cache |
| JwtFilter.JwtAuthenticationFilter.Filter | api-gateway/src/main/java/com/demo/gateway/config/JwtAuthenticationFilter.java:58-115 | outcome and new cache are exactly `Admission` of the old cache |

## Left out

- Transactions: `@Transactional` rollback is not modelled as such. Every handler but `role.deleted` throws only before its first write, so a failure leaves the tables as they were; `role.deleted` of a role still in use fails at commit, and the rollback restores the tables, which the model states directly.
- SyncProperties.AuditNeverDecides: holds of the model only, because transactions are left out. In the program the audit helpers run inside the handler's `@Transactional` method, and a failing `existsByClerkEventId` or `save` marks that transaction rollback-only even though the helper's `catch` swallows the exception. The handler then returns normally, its commit throws `UnexpectedRollbackException`, the entity writes roll back and the controller answers 500. The model instead gives Done with the entity change kept.
- SyncProperties.UserAndOrganizationAuditNeverDecides: the same gap, for the user and organization handlers.
- SyncProperties.MembershipAuditNeverDecides: the same gap, for the membership handlers.
- SyncProperties.OtherAuditNeverDecides: the same gap, for the email, role and payment handlers.
- Authorization.IsAdminInAnyOrganization: the model follows the intent that the code's comment states: a prepared-statement conflict is retried in a new transaction, modelled as a second, independent query result. In the program `retryAdminCheckInNewTransaction` is private and called through `this`, so Spring's proxy never sees it and `REQUIRES_NEW` has no effect. The retry runs in the transaction that PostgreSQL has already aborted, and the read-only transaction boundary then throws `UnexpectedRollbackException`. So in the program the conflict path ends in an exception, never in an answer. The same holds for Authorization.RetryAdminCheck and Authorization.FailedRetryDenies.
- Authorization.RetryAdminCheck: models the retry as an independent query. The `REQUIRES_NEW` annotation is inert, as the line above explains.
- Authorization.FailedRetryDenies: states the answer false that the code's catch returns. In the program the rollback-only transaction throws at its boundary instead.
- I/O: JSON parsing (Jackson), HTTP, logging and the JWKS fetch are parameters. The fetched JWKS reply is passed in as a value.
- Cryptography and encoding: HMAC-SHA256, Base64 and base64url, UTF-8 and RSA key construction are function parameters. jjwt's signature and issuer checks are one oracle, `parseSignedClaims`. jjwt's own expiry check lies inside that oracle; the filter's explicit check at JwtAuthenticationFilter.java:144-146 is modelled.
- Clock: `System.currentTimeMillis` is a parameter. It is used by the event-id fallback, the repair membership id and the token expiry check.
- Exception messages: the text of a `NullPointerException` from a missing JSON field is a fixed placeholder, because the JDK's message is not part of the source. The message chosen when a duplicate generated membership id clashes is also the model's own, and so is the one for a `role.deleted` whose commit the role foreign key rolls back.
- Timestamps: `createdAt` and `updatedAt` columns are omitted, and so is `roleId` in responses. The default sort is recorded as a sort order, and the paged read that applies it is a parameter (`findAll`).
- OrganizationService.getUserMemberships is left out, because it is not one of the operations of this core.
- Payment code, the REST controllers other than the webhook controller, and the Spring security wiring are left out as glue with no logic of their own.
- ConcurrentHashMap: the key cache is modelled as a sequential map, and concurrent filters are not modelled.
- WebhookController.ConstantTimeEquals: the accumulator is an unbounded natural number, not a 32-bit `int`; since it is only compared with zero, the result is the same.
- OrganizationService.TotalPages: the division in `double` and the cast to `int` are modelled as exact integer ceiling division. With size 0 the double result is infinity (cast to `Integer.MAX_VALUE`) for a positive count and NaN (cast to 0) for no members, and the model gives those values. A negative size is the saturated ceiling of the negative quotient.
- Common.ToUpper: only the ASCII letters a-z are upper-cased. Java's `toUpperCase` also maps other letters and can change the length (`ß` becomes `SS`); role names outside ASCII are not modelled.
- SyncSpec.MembershipCreated: its own contract states the failure rule and which tables stay untouched; the row it writes is stated separately by `SyncProperties.MembershipCreatedGrantsRequestedRole`.
- SyncSpec.MembershipUpdated: its own contract states the failure rule and which tables stay untouched; the role it writes is stated separately by `SyncProperties.MembershipUpdatedSetsRequestedRole`.
- UserWebhookService.WebhookService.ProcessMembershipCreated: proved equal to `SyncSpec.MembershipCreated`; the row it writes is stated by `SyncProperties.MembershipCreatedGrantsRequestedRole`.
- UserWebhookService.WebhookService.ProcessMembershipUpdated: proved equal to `SyncSpec.MembershipUpdated`; the role it writes is stated by `SyncProperties.MembershipUpdatedSetsRequestedRole`.
- SyncSpec.UserUpdated: its own contract states the failure rule and which tables stay untouched; the fallback to creation and the overwrite of present fields are stated by `SyncProperties.UpdatesOfUnknownEntitiesCreate` and `SyncProperties.UserUpdatedKeepsIdentity`.
- SyncSpec.OrganizationUpdated: its own contract states the failure rule and which tables stay untouched; the fallback to creation and the rewritten row are stated by `SyncProperties.UpdatesOfUnknownEntitiesCreate` and `SyncProperties.OrganizationUpdatedKeepsIdentity`.
- UserWebhookService.WebhookService.ProcessUserUpdated: proved equal to `SyncSpec.UserUpdated`, whose promises are stated by the two lemmas named above.
- UserWebhookService.WebhookService.ProcessOrganizationUpdated: proved equal to `SyncSpec.OrganizationUpdated`, whose promises are stated by the two lemmas named above.
- SyncSpec.UserCreated: its own contract states the failure rule and which tables stay untouched; when a user is added, and its fields, are stated by `SyncProperties.UserCreatedAddsIff`.
- LegacySyncSpec.UserUpdated: its own contract states the failure rule and which tables stay untouched; the unknown-user fallback and the overwrite of present fields are stated by `LegacySyncProperties.UserUpdatedOfUnknownUserCreates` and `LegacySyncProperties.UserUpdatedKeepsIdentity`.
- LegacyWebhookService.WebhookService.ProcessUserUpdated: proved equal to `LegacySyncSpec.UserUpdated`, whose promises are stated by the two lemmas above.
- JwtFilter.BearerToken: header names are matched exactly; the case-insensitive lookup of `HttpHeaders` is not modelled.
- JwtFilter.WithIdentity: header names are matched exactly, so a client header `x-user-id` in another case is a different key and survives next to the forwarded `X-User-Id`; Spring's `HttpHeaders` would treat it as the same header.
- JwtFilter.IdentityCannotBeSpoofed: proved for a client header spelled exactly `X-User-Id`; spellings in another case are not covered, for the same reason.
- WebhookController.Header: the lookup is exact-case, while the servlet's `getHeader` ignores case; a Svix header sent in another case is not found in the model.
- JwtFilter.Admission: an `org_id` claim that is not a string (jjwt's `RequiredTypeException`) is not modelled; the claim is an optional string.
- The filter's `getOrder` is left out: it only fixes the filter's position in the chain.
- UserService.GetAllUsers: the `Page` metadata (total elements, number of pages) is not modelled; only the page's content is.
- MembershipRepository.FindByUserIdWithRelations: a membership whose role is null cannot be represented, because every membership row carries a role name.
- OrganizationService.MembersWithRelations: `findByOrganizationIdWithRelations` is not declared in the user MembershipRepository, so its meaning is an assumption, stated in the member's contract.
