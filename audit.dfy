/** The two audit helpers of the webhook service: which external ids an audit
  * row records, which event id de-duplicates it, and when a row is written. */
module Audit {
  import opened Common
  import opened Json
  import opened Store

  /** What the handlers take from their surroundings: the wall clock (used
    * only when an event id must be synthesised) and whether the audit tables
    * accept a write (a failed write is logged and swallowed). */
  datatype Env = Env(nowMillis: int, auditStoreUp: bool)

  /** The event id used for de-duplication, tried in the order
    * `svix_id`, `id`, `event_id`, then `instance_id + "_" + timestamp`
    * (the clock standing in for a missing `timestamp`). */
  function EventId(ev: Json, nowMillis: int): (r: Option<string>)
    ensures r.None? <==> !(Has(ev, "svix_id") || Has(ev, "id") || Has(ev, "event_id") || Has(ev, "instance_id"))
    ensures Has(ev, "svix_id") ==> r == Some(Text(ev, "svix_id"))
    ensures !Has(ev, "svix_id") && Has(ev, "id") ==> r == Some(Text(ev, "id"))
    ensures !Has(ev, "svix_id") && !Has(ev, "id") && Has(ev, "event_id") ==> r == Some(Text(ev, "event_id"))
    ensures !Has(ev, "svix_id") && !Has(ev, "id") && !Has(ev, "event_id") && Has(ev, "instance_id") ==>
              r == Some(Text(ev, "instance_id") + "_" +
                        (if Has(ev, "timestamp") then Text(ev, "timestamp") else IntToString(nowMillis)))
  {
    if Has(ev, "svix_id") then Some(Text(ev, "svix_id"))
    else if Has(ev, "id") then Some(Text(ev, "id"))
    else if Has(ev, "event_id") then Some(Text(ev, "event_id"))
    else if Has(ev, "instance_id") then
      Some(Text(ev, "instance_id") + "_" + (if Has(ev, "timestamp") then Text(ev, "timestamp") else IntToString(nowMillis)))
    else None
  }

  /** An event whose id does not depend on when it is processed. */
  predicate StableEventId(ev: Json)
  {
    Has(ev, "svix_id") || Has(ev, "id") || Has(ev, "event_id") || (Has(ev, "instance_id") && Has(ev, "timestamp"))
  }

  lemma StableEventIdIgnoresClock(ev: Json, now1: int, now2: int)
    requires StableEventId(ev)
    ensures EventId(ev, now1) == EventId(ev, now2)
    ensures EventId(ev, now1).Some?
  {
  }

  /** The user id recorded on a user audit row: the given one, or when that is
    * empty, `data.id`, else `data.user_id`. */
  function AuditUserId(clerkUserId: string, ev: Json): (r: string)
    ensures clerkUserId != "" ==> r == clerkUserId
    ensures clerkUserId == "" && Get(ev, "data").Some? && Has(Get(ev, "data").value, "id") ==>
              r == Text(Get(ev, "data").value, "id")
    ensures clerkUserId == "" && Get(ev, "data").Some? && !Has(Get(ev, "data").value, "id") &&
            Has(Get(ev, "data").value, "user_id") ==>
              r == Text(Get(ev, "data").value, "user_id")
    ensures r != clerkUserId ==>
              clerkUserId == "" && Get(ev, "data").Some? &&
              (Has(Get(ev, "data").value, "id") || Has(Get(ev, "data").value, "user_id"))
  {
    if clerkUserId != "" then clerkUserId
    else
      match Get(ev, "data")
      case None => clerkUserId
      case Some(data) =>
        if Has(data, "id") then Text(data, "id")
        else if Has(data, "user_id") then Text(data, "user_id")
        else clerkUserId
  }

  /** `storeUserEvent`: a row is appended unless its event id is already
    * recorded or the write fails. */
  function StoreUserEvent(log: seq<UserEvent>, clerkUserId: string, eventType: string, ev: Json, env: Env)
    : (r: seq<UserEvent>)
    ensures r == log || r == log + [UserEvent(AuditUserId(clerkUserId, ev), eventType, ev, EventId(ev, env.nowMillis))]
    ensures EventId(ev, env.nowMillis).Some? && HasUserEventId(log, EventId(ev, env.nowMillis).value) ==> r == log
    ensures r != log <==>
      env.auditStoreUp && !(EventId(ev, env.nowMillis).Some? && HasUserEventId(log, EventId(ev, env.nowMillis).value))
  {
    var eventId := EventId(ev, env.nowMillis);
    if eventId.Some? && HasUserEventId(log, eventId.value) then log
    else if !env.auditStoreUp then log
    else log + [UserEvent(AuditUserId(clerkUserId, ev), eventType, ev, eventId)]
  }

  /** The organization id recorded on an organization audit row: the given
    * one, or when that is null or empty, `data.id`, `data.organization_id`,
    * `data.organization.id`. */
  function AuditOrganizationId(clerkOrgId: Option<string>, ev: Json): (r: Option<string>)
    ensures clerkOrgId.Some? && clerkOrgId.value != "" ==> r == clerkOrgId
    ensures !(clerkOrgId.Some? && clerkOrgId.value != "") && Get(ev, "data").Some? && Has(Get(ev, "data").value, "id") ==>
              r == Some(Text(Get(ev, "data").value, "id"))
    ensures r != clerkOrgId ==>
              Get(ev, "data").Some? && r.Some? &&
              (Has(Get(ev, "data").value, "id") || Has(Get(ev, "data").value, "organization_id") ||
               TextAt(Get(ev, "data").value, ["organization", "id"]).Some?)
    ensures r.None? ==> clerkOrgId.None?
  {
    if clerkOrgId.Some? && clerkOrgId.value != "" then clerkOrgId
    else
      match Get(ev, "data")
      case None => clerkOrgId
      case Some(data) =>
        if Has(data, "id") then Some(Text(data, "id"))
        else if Has(data, "organization_id") then Some(Text(data, "organization_id"))
        else if TextAt(data, ["organization", "id"]).Some? then TextAt(data, ["organization", "id"])
        else clerkOrgId
  }

  predicate Blank(id: Option<string>)
  {
    id.None? || id.value == ""
  }

  /** The user id taken from the `data` object for an organization audit row,
    * in the order of the seven places it is looked for. */
  function DataUserId(clerkUserId: Option<string>, data: Json): (r: Option<string>)
    ensures TextAt(data, ["public_user_data", "user_id"]).Some? ==> r == TextAt(data, ["public_user_data", "user_id"])
    ensures TextAt(data, ["public_user_data", "user_id"]).None? && Has(data, "user_id") ==> r == Some(Text(data, "user_id"))
    ensures r.None? ==> clerkUserId.None?
    ensures TextAt(data, ["public_user_data", "user_id"]).None? && !Has(data, "user_id")
            && TextAt(data, ["user", "id"]).None? && !Has(data, "created_by") && !Has(data, "updated_by")
            && TextAt(data, ["public_metadata", "user_id"]).None? && TextAt(data, ["private_metadata", "user_id"]).None?
            ==> r == clerkUserId
  {
    if TextAt(data, ["public_user_data", "user_id"]).Some? then TextAt(data, ["public_user_data", "user_id"])
    else if Has(data, "user_id") then Some(Text(data, "user_id"))
    else if TextAt(data, ["user", "id"]).Some? then TextAt(data, ["user", "id"])
    else if Has(data, "created_by") then Some(Text(data, "created_by"))
    else if Has(data, "updated_by") then Some(Text(data, "updated_by"))
    else if TextAt(data, ["public_metadata", "user_id"]).Some? then TextAt(data, ["public_metadata", "user_id"])
    else if TextAt(data, ["private_metadata", "user_id"]).Some? then TextAt(data, ["private_metadata", "user_id"])
    else clerkUserId
  }

  /** The user id recorded on an organization audit row: the given one, or
    * when that is null or empty, the `data` lookups, and if those leave it
    * blank, the event's own `user_id`, `created_by`, `updated_by`. */
  function AuditOrganizationUserId(clerkUserId: Option<string>, ev: Json): (r: Option<string>)
    ensures !Blank(clerkUserId) ==> r == clerkUserId
    ensures Blank(clerkUserId) && Get(ev, "data").Some? && !Blank(DataUserId(clerkUserId, Get(ev, "data").value)) ==>
              r == DataUserId(clerkUserId, Get(ev, "data").value)
    ensures r.None? ==>
              clerkUserId.None? && !Has(ev, "user_id") && !Has(ev, "created_by") && !Has(ev, "updated_by")
  {
    if !Blank(clerkUserId) then clerkUserId
    else
      var fromData := match Get(ev, "data") case None => clerkUserId case Some(data) => DataUserId(clerkUserId, data);
      if Blank(fromData) && Has(ev, "user_id") then Some(Text(ev, "user_id"))
      else if Blank(fromData) && Has(ev, "created_by") then Some(Text(ev, "created_by"))
      else if Blank(fromData) && Has(ev, "updated_by") then Some(Text(ev, "updated_by"))
      else fromData
  }

  /** `storeOrganizationEvent`: a row is appended unless its event id is
    * already recorded or the write fails. */
  function StoreOrganizationEvent(log: seq<OrganizationEvent>, clerkOrgId: Option<string>, clerkUserId: Option<string>,
                                  eventType: string, ev: Json, env: Env)
    : (r: seq<OrganizationEvent>)
    ensures r == log || r == log + [OrganizationEvent(AuditOrganizationId(clerkOrgId, ev),
                                      AuditOrganizationUserId(clerkUserId, ev), eventType, ev, EventId(ev, env.nowMillis))]
    ensures EventId(ev, env.nowMillis).Some? && HasOrganizationEventId(log, EventId(ev, env.nowMillis).value) ==> r == log
    ensures r != log <==>
      env.auditStoreUp && !(EventId(ev, env.nowMillis).Some? && HasOrganizationEventId(log, EventId(ev, env.nowMillis).value))
  {
    var eventId := EventId(ev, env.nowMillis);
    if eventId.Some? && HasOrganizationEventId(log, eventId.value) then log
    else if !env.auditStoreUp then log
    else log + [OrganizationEvent(AuditOrganizationId(clerkOrgId, ev), AuditOrganizationUserId(clerkUserId, ev),
                                  eventType, ev, eventId)]
  }

  // ------------------------------------------------------------------
  // Properties
  // ------------------------------------------------------------------

  /** Writing keeps event ids unique in the user audit log. */
  lemma StoreUserEventKeepsIdsUnique(log: seq<UserEvent>, clerkUserId: string, eventType: string, ev: Json, env: Env)
    requires UniqueUserEventIds(log)
    ensures UniqueUserEventIds(StoreUserEvent(log, clerkUserId, eventType, ev, env))
  {
    var r := StoreUserEvent(log, clerkUserId, eventType, ev, env);
    if r != log {
      forall i, j | 0 <= i < |r| && 0 <= j < |r| && r[i].clerkEventId.Some? && r[i].clerkEventId == r[j].clerkEventId
        ensures i == j
      {
      }
    }
  }

  /** Writing keeps event ids unique in the organization audit log. */
  lemma StoreOrganizationEventKeepsIdsUnique(log: seq<OrganizationEvent>, clerkOrgId: Option<string>,
                                             clerkUserId: Option<string>, eventType: string, ev: Json, env: Env)
    requires UniqueOrganizationEventIds(log)
    ensures UniqueOrganizationEventIds(StoreOrganizationEvent(log, clerkOrgId, clerkUserId, eventType, ev, env))
  {
    var r := StoreOrganizationEvent(log, clerkOrgId, clerkUserId, eventType, ev, env);
    if r != log {
      forall i, j | 0 <= i < |r| && 0 <= j < |r| && r[i].clerkEventId.Some? && r[i].clerkEventId == r[j].clerkEventId
        ensures i == j
      {
      }
    }
  }

  /** Storing the same event twice writes at most one row when its id is
    * stable, whatever the two clocks read. */
  lemma StoreUserEventTwiceWritesOnce(log: seq<UserEvent>, clerkUserId: string, eventType: string, ev: Json,
                                      env1: Env, env2: Env)
    requires StableEventId(ev)
    ensures var once := StoreUserEvent(log, clerkUserId, eventType, ev, env1);
            once != log ==> StoreUserEvent(once, clerkUserId, eventType, ev, env2) == once
  {
    var once := StoreUserEvent(log, clerkUserId, eventType, ev, env1);
    StableEventIdIgnoresClock(ev, env1.nowMillis, env2.nowMillis);
    if once != log {
      assert once[|log|].clerkEventId == EventId(ev, env2.nowMillis);
    }
  }

  lemma StoreOrganizationEventTwiceWritesOnce(log: seq<OrganizationEvent>, clerkOrgId: Option<string>,
                                              clerkUserId: Option<string>, eventType: string, ev: Json,
                                              env1: Env, env2: Env)
    requires StableEventId(ev)
    ensures var once := StoreOrganizationEvent(log, clerkOrgId, clerkUserId, eventType, ev, env1);
            once != log ==> StoreOrganizationEvent(once, clerkOrgId, clerkUserId, eventType, ev, env2) == once
  {
    var once := StoreOrganizationEvent(log, clerkOrgId, clerkUserId, eventType, ev, env1);
    StableEventIdIgnoresClock(ev, env1.nowMillis, env2.nowMillis);
    if once != log {
      assert once[|log|].clerkEventId == EventId(ev, env2.nowMillis);
    }
  }

  /** With a stable id and a working store, the event's id is recorded
    * afterwards, whether this call wrote it or an earlier one did. */
  lemma StoreUserEventRecordsId(log: seq<UserEvent>, clerkUserId: string, eventType: string, ev: Json, env: Env)
    requires StableEventId(ev) && env.auditStoreUp
    ensures HasUserEventId(StoreUserEvent(log, clerkUserId, eventType, ev, env), EventId(ev, env.nowMillis).value)
  {
    var r := StoreUserEvent(log, clerkUserId, eventType, ev, env);
    if !HasUserEventId(log, EventId(ev, env.nowMillis).value) {
      assert r[|log|].clerkEventId == EventId(ev, env.nowMillis);
    }
  }

  lemma StoreOrganizationEventRecordsId(log: seq<OrganizationEvent>, clerkOrgId: Option<string>,
                                        clerkUserId: Option<string>, eventType: string, ev: Json, env: Env)
    requires StableEventId(ev) && env.auditStoreUp
    ensures HasOrganizationEventId(StoreOrganizationEvent(log, clerkOrgId, clerkUserId, eventType, ev, env),
                                   EventId(ev, env.nowMillis).value)
  {
    var r := StoreOrganizationEvent(log, clerkOrgId, clerkUserId, eventType, ev, env);
    if !HasOrganizationEventId(log, EventId(ev, env.nowMillis).value) {
      assert r[|log|].clerkEventId == EventId(ev, env.nowMillis);
    }
  }

  /** A recorded id stays recorded: the logs only grow. */
  lemma StoreUserEventKeepsIds(log: seq<UserEvent>, id: string, clerkUserId: string, eventType: string, ev: Json, env: Env)
    requires HasUserEventId(log, id)
    ensures HasUserEventId(StoreUserEvent(log, clerkUserId, eventType, ev, env), id)
  {
    var r := StoreUserEvent(log, clerkUserId, eventType, ev, env);
    var i :| 0 <= i < |log| && log[i].clerkEventId == Some(id);
    assert r[i] == log[i];
  }

  lemma StoreOrganizationEventKeepsIds(log: seq<OrganizationEvent>, id: string, clerkOrgId: Option<string>,
                                       clerkUserId: Option<string>, eventType: string, ev: Json, env: Env)
    requires HasOrganizationEventId(log, id)
    ensures HasOrganizationEventId(StoreOrganizationEvent(log, clerkOrgId, clerkUserId, eventType, ev, env), id)
  {
    var r := StoreOrganizationEvent(log, clerkOrgId, clerkUserId, eventType, ev, env);
    var i :| 0 <= i < |log| && log[i].clerkEventId == Some(id);
    assert r[i] == log[i];
  }
}
