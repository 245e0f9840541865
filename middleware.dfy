/**
 * The audit trail and the access gates placed in front of the routes.
 *
 * An audit entry is appended as one JSON line to the day's log file; a
 * write that fails is swallowed, so the request goes on whether or not the
 * entry reached the file. The trail is a ghost log of the entries that did;
 * every writer takes a `delivered` flag saying whether the write succeeded.
 * The timestamp is a parameter, as the clock is outside the model.
 */
module Middleware {
  import opened Wrappers
  import opened Json
  import opened Rbac

  /** Why a request ends without its result: an HTTPException with a status code, or another exception (500). */
  datatype Failure = HttpError(code: int) | ServerError

  /** The authenticated user as the gates see it; `role` is the stored role string. */
  datatype Principal = Principal(id: string, email: string, role: string)

  datatype ResourceRef = ResourceRef(kind: string, id: Option<string>)

  datatype Outcome = Outcome(success: bool, statusCode: int)

  /** One audit log entry, before it is serialised. */
  datatype AuditEntry = AuditEntry(
    timestamp: string,
    action: string,
    user: Principal,
    resource: ResourceRef,
    details: map<string, JsonValue>,
    outcome: Outcome)

  /**
   * The entry audit_log builds: the user, resource and outcome as given,
   * and no details (`details or {}`) standing for an empty object.
   */
  function MakeEntry(now: string, action: string, user: Principal, resourceKind: string,
                     resourceId: Option<string>, details: Option<map<string, JsonValue>>,
                     success: bool, statusCode: int): (e: AuditEntry)
    ensures e.action == action && e.user == user && e.timestamp == now
    ensures e.resource == ResourceRef(resourceKind, resourceId)
    ensures e.outcome == Outcome(success, statusCode)
    ensures details.None? ==> e.details == map[]
    ensures details.Some? ==> e.details == details.value
  {
    AuditEntry(now, action, user, ResourceRef(resourceKind, resourceId),
               if details.Some? then details.value else map[],
               Outcome(success, statusCode))
  }

  /** The JSON object written to the log file for an entry. */
  function EntryJson(e: AuditEntry): JsonValue {
    JObject(map[
      "timestamp" := JStr(e.timestamp),
      "action" := JStr(e.action),
      "user" := JObject(map["id" := JStr(e.user.id), "email" := JStr(e.user.email), "role" := JStr(e.user.role)]),
      "resource" := JObject(map["type" := JStr(e.resource.kind), "id" := OptStr(e.resource.id)]),
      "details" := JObject(e.details),
      "outcome" := JObject(map["success" := JBool(e.outcome.success), "status_code" := JNum(e.outcome.statusCode)])
    ])
  }

  /**
   * Every written line has the six top-level keys, the user's id, email and
   * role, the resource's type and id, and the outcome's success and code.
   */
  lemma EntryJsonShape(e: AuditEntry)
    ensures EntryJson(e).JObject?
    ensures EntryJson(e).fields.Keys == {"timestamp", "action", "user", "resource", "details", "outcome"}
    ensures EntryJson(e).fields["user"].JObject?
    ensures EntryJson(e).fields["user"].fields.Keys == {"id", "email", "role"}
    ensures EntryJson(e).fields["resource"].JObject?
    ensures EntryJson(e).fields["resource"].fields.Keys == {"type", "id"}
    ensures EntryJson(e).fields["outcome"].JObject?
    ensures EntryJson(e).fields["outcome"].fields.Keys == {"success", "status_code"}
    ensures EntryJson(e).fields["details"] == JObject(e.details)
  {
  }

  /** What one audit write adds to the trail: the entry, if there is one and the write succeeds. */
  function Written(delivered: bool, e: Option<AuditEntry>): seq<AuditEntry> {
    if delivered && e.Some? then [e.value] else []
  }

  /** The entries that reached the audit log files, oldest first. */
  class AuditTrail {
    ghost var entries: seq<AuditEntry>

    constructor()
      ensures entries == []
    {
      entries := [];
    }

    /** audit_log: the entry is appended when the write succeeds, and a failed write changes nothing. */
    method Record(e: AuditEntry, delivered: bool)
      modifies this
      ensures entries == old(entries) + Written(delivered, Some(e))
    {
      if delivered {
        entries := entries + [e];
      }
    }

    /**
     * Runs a gate: its denial entry, if any, is recorded, and the request
     * proceeds or fails as the gate decided.
     */
    method Enforce(g: Gate, delivered: bool) returns (r: Result<Principal, Failure>)
      modifies this
      ensures r == g.outcome
      ensures entries == old(entries) + Written(delivered, g.denial)
    {
      if g.denial.Some? {
        Record(g.denial.value, delivered);
      }
      r := g.outcome;
    }
  }

  /** What a gate decides: let the user through or fail, and the denial it logs. */
  datatype Gate = Gate(outcome: Result<Principal, Failure>, denial: Option<AuditEntry>)

  /** require_permission: the role must hold the permission; a refusal is logged and is a 403. */
  function PermissionGate(user: Principal, perm: Permission, now: string): (g: Gate)
    ensures ParseRole(user.role).None? ==> g == Gate(Err(ServerError), None)
    ensures g.outcome.Ok? ==> g.outcome.value == user
    ensures g.outcome.Ok? <==> ParseRole(user.role).Some? && HasPermission(ParseRole(user.role).value, perm)
    ensures g.denial.Some? <==> g.outcome == Err(HttpError(403))
    ensures g.denial.Some? ==>
      g.denial.value.action == "permission.denied" && g.denial.value.user == user &&
      g.denial.value.resource == ResourceRef("permission", Some(perm.Value())) &&
      g.denial.value.details == map["required_permission" := JStr(perm.Value())] &&
      g.denial.value.outcome == Outcome(false, 403)
  {
    var role := ParseRole(user.role);
    if role.None? then Gate(Err(ServerError), None)
    else if !HasPermission(role.value, perm) then
      Gate(Err(HttpError(403)),
           Some(MakeEntry(now, "permission.denied", user, "permission", Some(perm.Value()),
                          Some(map["required_permission" := JStr(perm.Value())]), false, 403)))
    else Gate(Ok(user), None)
  }

  function RoleNames(roles: seq<Role>): (r: seq<JsonValue>)
    ensures |r| == |roles|
    ensures forall i :: 0 <= i < |roles| ==> r[i] == JStr(roles[i].Name())
  {
    if roles == [] then [] else [JStr(roles[0].Name())] + RoleNames(roles[1..])
  }

  /** require_roles: the user's role must be one of `roles`; a refusal is logged and is a 403. */
  function RolesGate(user: Principal, roles: seq<Role>, now: string): (g: Gate)
    ensures ParseRole(user.role).None? ==> g == Gate(Err(ServerError), None)
    ensures g.outcome.Ok? ==> g.outcome.value == user
    ensures g.outcome.Ok? <==> ParseRole(user.role).Some? && ParseRole(user.role).value in roles
    ensures g.denial.Some? <==> g.outcome == Err(HttpError(403))
    ensures g.denial.Some? ==>
      g.denial.value.action == "role.denied" && g.denial.value.user == user &&
      g.denial.value.resource == ResourceRef("role", None) &&
      g.denial.value.details == map["allowed_roles" := JArray(RoleNames(roles))] &&
      g.denial.value.outcome == Outcome(false, 403)
  {
    var role := ParseRole(user.role);
    if role.None? then Gate(Err(ServerError), None)
    else if role.value !in roles then
      Gate(Err(HttpError(403)),
           Some(MakeEntry(now, "role.denied", user, "role", None,
                          Some(map["allowed_roles" := JArray(RoleNames(roles))]), false, 403)))
    else Gate(Ok(user), None)
  }

  /** `doc.author_id or ""`: the author id handed to the rbac predicates. */
  function AuthorOrEmpty(authorId: Option<string>): (a: string)
    ensures authorId.Some? && authorId.value != "" ==> a == authorId.value
    ensures authorId.None? ==> a == ""
  {
    if authorId.Some? then authorId.value else ""
  }

  /**
   * The permission dispatch of require_document_permission: view, download,
   * update and delete consult their rbac predicate, promote is let through
   * (the target status is checked by the route), and upload and share are
   * never granted on a document.
   */
  function DocumentPermits(userId: string, role: Role, perm: Permission, status: Status, authorId: string): (r: bool)
    ensures perm == Promote ==> r
    ensures perm == Upload || perm == Share ==> !r
    ensures perm == View || perm == Download ==> (r <==> CanView(userId, role, status, authorId))
    ensures perm == Update ==> (r <==> CanUpdate(userId, role, status, authorId))
    ensures perm == Delete ==> (r <==> role == Admin)
  {
    match perm
    case View => CanView(userId, role, status, authorId)
    case Download => CanDownload(userId, role, status, authorId)
    case Update => CanUpdate(userId, role, status, authorId)
    case Delete => CanDelete(userId, role, status, authorId)
    case Promote => true
    case Upload => false
    case Share => false
  }

  /** The document facts a gate needs: its status and its author, if any. */
  datatype DocFacts = DocFacts(status: Status, authorId: Option<string>)

  /** The denial entry of require_document_permission. */
  function DocumentDenial(user: Principal, perm: Permission, documentId: string, doc: DocFacts, now: string): AuditEntry {
    MakeEntry(now, "document." + perm.Value() + ".denied", user, "document", Some(documentId),
              Some(map["permission" := JStr(perm.Value()),
                       "document_status" := JStr(doc.status.Code()),
                       "document_author" := OptStr(doc.authorId)]),
              false, 403)
  }

  /**
   * require_document_permission as written: a missing document is a 404,
   * a refusal is logged, and then a 403 is raised, except for a non-Admin
   * asking about an S0 document whose author they are, who is let through
   * although the refusal was logged.
   */
  function DocumentPermissionGate(user: Principal, perm: Permission, documentId: string,
                                  doc: Option<DocFacts>, now: string): (g: Gate)
    ensures doc.None? ==> g == Gate(Err(HttpError(404)), None)
    ensures doc.Some? && ParseRole(user.role).None? ==> g == Gate(Err(ServerError), None)
    ensures g.outcome.Ok? ==> g.outcome.value == user
    ensures doc.Some? && ParseRole(user.role).Some? ==>
      var role := ParseRole(user.role).value;
      var permitted := DocumentPermits(user.id, role, perm, doc.value.status, AuthorOrEmpty(doc.value.authorId));
      (g.denial.Some? <==> !permitted) &&
      (g.outcome.Ok? <==> permitted || (doc.value.status == Wip && role != Admin && doc.value.authorId == Some(user.id))) &&
      (g.outcome.Err? ==> g.outcome.error == HttpError(403))
    ensures g.denial.Some? ==> doc.Some? && g.denial.value == DocumentDenial(user, perm, documentId, doc.value, now)
  {
    if doc.None? then Gate(Err(HttpError(404)), None)
    else
      var role := ParseRole(user.role);
      if role.None? then Gate(Err(ServerError), None)
      else
        var d := doc.value;
        if DocumentPermits(user.id, role.value, perm, d.status, AuthorOrEmpty(d.authorId)) then Gate(Ok(user), None)
        else
          var denial := Some(DocumentDenial(user, perm, documentId, d, now));
          if d.status == Wip && role.value != Admin then
            if d.authorId != Some(user.id) then Gate(Err(HttpError(403)), denial)
            else Gate(Ok(user), denial)
          else Gate(Err(HttpError(403)), denial)
  }

  /**
   * The gate as evidently intended: every logged refusal is a 403, and the
   * user passes exactly when the rbac rule permits.
   */
  function StrictDocumentPermissionGate(user: Principal, perm: Permission, documentId: string,
                                        doc: Option<DocFacts>, now: string): (g: Gate)
    ensures doc.None? ==> g == Gate(Err(HttpError(404)), None)
    ensures doc.Some? && ParseRole(user.role).None? ==> g == Gate(Err(ServerError), None)
    ensures g.outcome.Ok? ==> g.outcome.value == user
    ensures g.outcome.Ok? <==>
      doc.Some? && ParseRole(user.role).Some? &&
      DocumentPermits(user.id, ParseRole(user.role).value, perm, doc.value.status, AuthorOrEmpty(doc.value.authorId))
    ensures g.denial.Some? <==> g.outcome == Err(HttpError(403))
    ensures g.denial.Some? ==> doc.Some? && g.denial.value == DocumentDenial(user, perm, documentId, doc.value, now)
  {
    if doc.None? then Gate(Err(HttpError(404)), None)
    else
      var role := ParseRole(user.role);
      if role.None? then Gate(Err(ServerError), None)
      else if DocumentPermits(user.id, role.value, perm, doc.value.status, AuthorOrEmpty(doc.value.authorId)) then
        Gate(Ok(user), None)
      else Gate(Err(HttpError(403)), Some(DocumentDenial(user, perm, documentId, doc.value, now)))
  }

  /**
   * The gate as written lets a Viewer through to update their own S0
   * document, while logging that the update was denied.
   */
  lemma AuthorPassesDeniedGate(now: string)
    ensures var user := Principal("u1", "v@example.com", "Viewer");
            var g := DocumentPermissionGate(user, Update, "d1", Some(DocFacts(Wip, Some("u1"))), now);
            g.outcome == Ok(user) && g.denial.Some? && g.denial.value.action == "document.update.denied"
  {
    var user := Principal("u1", "v@example.com", "Viewer");
    assert ParseRole(user.role) == Some(Viewer);
    assert !CanUpdate("u1", Viewer, Wip, "u1");
  }

  /**
   * Both gates agree wherever the rule permits or the document is missing;
   * they differ only on the requests the as-written gate wrongly lets through.
   */
  lemma StrictGateDiffersOnlyOnAuthorPassThrough(user: Principal, perm: Permission, documentId: string,
                                                 doc: Option<DocFacts>, now: string)
    ensures var g := DocumentPermissionGate(user, perm, documentId, doc, now);
            var s := StrictDocumentPermissionGate(user, perm, documentId, doc, now);
            g.denial == s.denial &&
            (g.outcome != s.outcome ==>
              doc.Some? && doc.value.status == Wip && doc.value.authorId == Some(user.id) &&
              g.outcome.Ok? && s.outcome == Err(HttpError(403)))
  {
  }

  /** An exception leaving an AuditLogger block, with its status_code attribute if it has one. */
  datatype Raised = Raised(statusCode: Option<int>)

  /** The exception a failure stands for: an HTTPException carries its code, anything else none. */
  function RaisedBy(f: Failure): (x: Raised)
    ensures f.HttpError? ==> x.statusCode == Some(f.code)
    ensures f.ServerError? ==> x.statusCode.None?
  {
    match f
    case HttpError(c) => Raised(Some(c))
    case ServerError => Raised(None)
  }

  /** The outcome AuditLogger logs: 200 on a clean exit, else the exception's status code or 500. */
  function ExitOutcome(exc: Option<Raised>): (o: Outcome)
    ensures o.success <==> exc.None?
    ensures exc.None? ==> o.statusCode == 200
    ensures exc.Some? && exc.value.statusCode.Some? ==> o.statusCode == exc.value.statusCode.value
    ensures exc.Some? && exc.value.statusCode.None? ==> o.statusCode == 500
  {
    if exc.None? then Outcome(true, 200)
    else if exc.value.statusCode.Some? then Outcome(false, exc.value.statusCode.value)
    else Outcome(false, 500)
  }

  /**
   * A failure leaving an AuditLogger block is logged with its own code,
   * or 500 when it is not an HTTPException.
   */
  lemma FailureOutcome(f: Failure)
    ensures !ExitOutcome(Some(RaisedBy(f))).success
    ensures f.HttpError? ==> ExitOutcome(Some(RaisedBy(f))).statusCode == f.code
    ensures f.ServerError? ==> ExitOutcome(Some(RaisedBy(f))).statusCode == 500
  {
  }

  /**
   * AuditLogger: a context manager that writes one audit entry when its
   * block ends, successful or not, and never suppresses the exception.
   * The elapsed time it adds to the details is not modelled.
   */
  class AuditLogger {
    const action: string
    const user: Principal
    const resourceKind: string
    const resourceId: Option<string>
    const details: Option<map<string, JsonValue>>

    constructor(action: string, user: Principal, resourceKind: string,
                resourceId: Option<string>, details: Option<map<string, JsonValue>>)
      ensures this.action == action && this.user == user && this.resourceKind == resourceKind
      ensures this.resourceId == resourceId && this.details == details
    {
      this.action := action;
      this.user := user;
      this.resourceKind := resourceKind;
      this.resourceId := resourceId;
      this.details := details;
    }

    /** The entry written when the block ends with `exc`. */
    function ExitEntry(exc: Option<Raised>, now: string): (e: AuditEntry)
      ensures e.action == action && e.user == user
      ensures e.resource == ResourceRef(resourceKind, resourceId)
      ensures e.outcome == ExitOutcome(exc)
      ensures details.Some? ==> e.details == details.value
      ensures details.None? ==> e.details == map[]
    {
      MakeEntry(now, action, user, resourceKind, resourceId,
                Some(if details.Some? then details.value else map[]),
                ExitOutcome(exc).success, ExitOutcome(exc).statusCode)
    }

    /** __exit__: logs the entry and lets the exception, if any, propagate. */
    method Exit(exc: Option<Raised>, now: string, trail: AuditTrail, delivered: bool) returns (suppress: bool)
      modifies trail
      ensures !suppress
      ensures trail.entries == old(trail.entries) + Written(delivered, Some(ExitEntry(exc, now)))
    {
      trail.Record(ExitEntry(exc, now), delivered);
      suppress := false;
    }
  }
}
