/**
 * The document routes: upload, metadata update, listing, deletion,
 * download and workflow promotion, over a store of document records.
 *
 * The database is the `DocumentStore`, a map from document id to record;
 * what the routes cannot see (the uploaded bytes, whether a file write or a
 * commit succeeds, whether a project exists, the new uuid, the clock) is
 * passed in. Every audit entry a route writes goes to an `AuditTrail`.
 */
module Documents {
  import opened Wrappers
  import opened Text
  import opened Json
  import opened Rbac
  import opened Workflow
  import opened Middleware

  /** The descriptive columns of a document, which promotion never touches. */
  datatype Metadata = Metadata(
    name: string,
    description: Option<string>,
    discipline: Option<string>,
    containerType: Option<string>,
    originator: Option<string>,
    projectId: Option<string>,
    size: Option<string>)

  /** A DocumentVersion row: one entry of a document's history. */
  datatype Version = Version(revision: string, status: Status, authorId: Option<string>, comment: string, date: string)

  /** A Document row. */
  class Document {
    const id: string
    var meta: Metadata
    var authorId: Option<string>
    var revision: string
    var status: Status
    var updatedAt: string
    var versions: seq<Version>

    constructor(id: string, meta: Metadata, authorId: Option<string>, revision: string,
                status: Status, updatedAt: string, versions: seq<Version>)
      ensures this.id == id && this.meta == meta && this.authorId == authorId
      ensures this.revision == revision && this.status == status
      ensures this.updatedAt == updatedAt && this.versions == versions
    {
      this.id := id;
      this.meta := meta;
      this.authorId := authorId;
      this.revision := revision;
      this.status := status;
      this.updatedAt := updatedAt;
      this.versions := versions;
    }

    /** The newest version records the document's current revision and status. */
    ghost predicate Valid()
      reads this
    {
      versions != [] &&
      versions[|versions| - 1].revision == revision &&
      versions[|versions| - 1].status == status
    }

    /** Moves the document to the plan's target and revision and appends the matching version. */
    method Advance(p: PromotionPlan, userId: string, now: string)
      modifies this
      ensures status == p.target && revision == p.newRevision && updatedAt == now
      ensures versions == old(versions) + [Version(p.newRevision, p.target, Some(userId), p.comment, now)]
      ensures meta == old(meta) && authorId == old(authorId)
      ensures Valid()
    {
      revision := p.newRevision;
      status := p.target;
      updatedAt := now;
      versions := versions + [Version(p.newRevision, p.target, Some(userId), p.comment, now)];
    }

    /** What the access rules look at. */
    function Facts(): DocFacts
      reads this
    {
      DocFacts(status, authorId)
    }

    /** The row as the listing query reads it. */
    function Row(): DocumentRow
      reads this
    {
      DocumentRow(id, meta, authorId, revision, status)
    }
  }

  /** A snapshot of a document's columns, as a query returns them. */
  datatype DocumentRow = DocumentRow(id: string, meta: Metadata, authorId: Option<string>, revision: string, status: Status)

  /** An entry about a document, as every route here writes it. */
  function DocumentEntry(now: string, action: string, user: Principal, documentId: Option<string>,
                         details: Option<map<string, JsonValue>>, success: bool, statusCode: int): AuditEntry {
    MakeEntry(now, action, user, "document", documentId, details, success, statusCode)
  }

  /** The `document.<verb>.not_found` entry of the routes that log a missing document. */
  function NotFoundEntry(now: string, verb: string, user: Principal, documentId: string): AuditEntry {
    DocumentEntry(now, "document." + verb + ".not_found", user, Some(documentId), None, false, 404)
  }

  /**
   * The access decision of update, delete and download: the user's role
   * must parse (else 500), and the rule for `perm` must permit (else 403).
   */
  function Authorize(user: Principal, perm: Permission, d: DocFacts): (r: Result<Role, Failure>)
    ensures ParseRole(user.role).None? <==> r == Err(ServerError)
    ensures r.Ok? ==> Some(r.value) == ParseRole(user.role)
    ensures r.Ok? <==> ParseRole(user.role).Some? &&
                       DocumentPermits(user.id, ParseRole(user.role).value, perm, d.status, AuthorOrEmpty(d.authorId))
    ensures r.Err? ==> r.error == ServerError || r.error == HttpError(403)
  {
    var role := ParseRole(user.role);
    if role.None? then Err(ServerError)
    else if !DocumentPermits(user.id, role.value, perm, d.status, AuthorOrEmpty(d.authorId)) then Err(HttpError(403))
    else Ok(role.value)
  }

  // ---------------------------------------------------------------- upload

  /** The form fields of an upload; a missing container type defaults to "M3". */
  datatype UploadForm = UploadForm(
    name: string,
    discipline: string,
    description: Option<string>,
    containerType: Option<string>,
    originator: Option<string>,
    projectId: Option<string>)

  function ContainerTypeOf(form: UploadForm): (c: string)
    ensures form.containerType.None? ==> c == "M3"
    ensures form.containerType.Some? ==> c == form.containerType.value
  {
    if form.containerType.Some? then form.containerType.value else "M3"
  }

  /**
   * Whether an upload succeeds, and why not: an unparsable role is a 500,
   * a role without upload permission a 403, a file that cannot be written
   * a 500, a named project that does not exist a 400, and a failed commit
   * a 500, checked in that order. On success the result is the size text
   * of the saved file.
   */
  function UploadVerdict(user: Principal, form: UploadForm, saved: Result<string, string>,
                         projectExists: bool, commitError: Option<string>): (r: Result<string, Failure>)
    ensures r.Ok? <==>
      ParseRole(user.role).Some? && HasPermission(ParseRole(user.role).value, Upload) &&
      saved.Ok? && (Truthy(form.projectId) ==> projectExists) && commitError.None?
    ensures r.Ok? ==> r.value == saved.value
    ensures ParseRole(user.role).None? ==> r == Err(ServerError)
    ensures ParseRole(user.role).Some? && !HasPermission(ParseRole(user.role).value, Upload) ==> r == Err(HttpError(403))
    ensures ParseRole(user.role).Some? && HasPermission(ParseRole(user.role).value, Upload) && saved.Err? ==>
      r == Err(HttpError(500))
    ensures (ParseRole(user.role).Some? && HasPermission(ParseRole(user.role).value, Upload) && saved.Ok? &&
             Truthy(form.projectId) && !projectExists) ==> r == Err(HttpError(400))
    ensures (ParseRole(user.role).Some? && HasPermission(ParseRole(user.role).value, Upload) && saved.Ok? &&
             (Truthy(form.projectId) ==> projectExists) && commitError.Some?) ==> r == Err(HttpError(500))
  {
    var role := ParseRole(user.role);
    if role.None? then Err(ServerError)
    else if Upload !in RolePermissions(role.value) then Err(HttpError(403))
    else if saved.Err? then Err(HttpError(500))
    else if Truthy(form.projectId) && !projectExists then Err(HttpError(400))
    else if commitError.Some? then Err(HttpError(500))
    else Ok(saved.value)
  }

  /** The audit entry an upload writes, if any: denied, failed, invalid_project, db_failed or the upload itself. */
  function UploadEntry(now: string, user: Principal, newId: string, form: UploadForm, saved: Result<string, string>,
                       projectExists: bool, commitError: Option<string>): Option<AuditEntry> {
    var role := ParseRole(user.role);
    var docName := map["document_name" := JStr(form.name)];
    if role.None? then None
    else if Upload !in RolePermissions(role.value) then
      Some(DocumentEntry(now, "document.upload.denied", user, None, Some(docName), false, 403))
    else if saved.Err? then
      Some(DocumentEntry(now, "document.upload.failed", user, None,
                         Some(docName["error" := JStr(saved.error)]), false, 500))
    else if Truthy(form.projectId) && !projectExists then
      Some(DocumentEntry(now, "document.upload.invalid_project", user, None,
                         Some(docName["project_id" := JStr(form.projectId.value)]), false, 400))
    else if commitError.Some? then
      Some(DocumentEntry(now, "document.upload.db_failed", user, None,
                         Some(docName["error" := JStr(commitError.value)]), false, 500))
    else
      Some(DocumentEntry(now, "document.upload", user, Some(newId),
                         Some(map["document_name" := JStr(form.name),
                                  "file_size" := JStr(saved.value),
                                  "discipline" := JStr(form.discipline),
                                  "container_type" := JStr(ContainerTypeOf(form)),
                                  "originator" := OptStr(form.originator),
                                  "project_id" := OptStr(form.projectId)]),
                         true, 200))
  }

  /** A Viewer can never upload, whatever the file, project or database do. */
  lemma ViewerCannotUpload(user: Principal, form: UploadForm, saved: Result<string, string>,
                           projectExists: bool, commitError: Option<string>)
    requires ParseRole(user.role) == Some(Viewer)
    ensures UploadVerdict(user, form, saved, projectExists, commitError) == Err(HttpError(403))
    ensures UploadEntry("", user, "", form, saved, projectExists, commitError).Some?
  {
  }

  // ------------------------------------------------------------- metadata

  /** A DocumentUpdate request: each field given replaces the stored one. */
  datatype MetadataUpdate = MetadataUpdate(name: Option<string>, description: Option<string>, discipline: Option<string>)

  /**
   * The metadata after an update: name, description and discipline are
   * replaced where the request gives them and kept where it does not; the
   * other columns never change.
   */
  function ApplyUpdate(m: Metadata, u: MetadataUpdate): (r: Metadata)
    ensures u.name.Some? ==> r.name == u.name.value
    ensures u.name.None? ==> r.name == m.name
    ensures u.description.Some? ==> r.description == u.description
    ensures u.description.None? ==> r.description == m.description
    ensures u.discipline.Some? ==> r.discipline == u.discipline
    ensures u.discipline.None? ==> r.discipline == m.discipline
    ensures r.containerType == m.containerType && r.originator == m.originator
    ensures r.projectId == m.projectId && r.size == m.size
  {
    m.(name := if u.name.Some? then u.name.value else m.name,
       description := if u.description.Some? then u.description else m.description,
       discipline := if u.discipline.Some? then u.discipline else m.discipline)
  }

  /** Applying the same update twice is applying it once; an empty update changes nothing. */
  lemma ApplyUpdateIdempotent(m: Metadata, u: MetadataUpdate)
    ensures ApplyUpdate(ApplyUpdate(m, u), u) == ApplyUpdate(m, u)
    ensures ApplyUpdate(m, MetadataUpdate(None, None, None)) == m
  {
  }

  // -------------------------------------------------------------- listing

  /** The listing's query parameters; each applies only when it is a non-empty string. */
  datatype ListFilters = ListFilters(status: Option<string>, discipline: Option<string>, search: Option<string>)

  /** The role filter of the listing query: non-Admins see non-S0 rows and the S0 rows they wrote. */
  predicate RoleAdmits(userId: string, role: Role, d: DocumentRow) {
    role == Admin || d.status != Wip || d.authorId == Some(userId)
  }

  /** The query filters: exact status code, exact discipline, and the search text inside the name, ignoring case. */
  predicate FiltersAdmit(f: ListFilters, d: DocumentRow) {
    && (Truthy(f.status) ==> d.status.Code() == f.status.value)
    && (Truthy(f.discipline) ==> d.meta.discipline == f.discipline)
    && (Truthy(f.search) ==> Contains(Upper(d.meta.name), Upper(f.search.value)))
  }

  predicate Listed(userId: string, role: Role, f: ListFilters, d: DocumentRow) {
    RoleAdmits(userId, role, d) && FiltersAdmit(f, d)
  }

  /**
   * The rows the listing returns: the listed ones, each as often as the
   * query returns it (ListRowsCounts), in the query's order
   * (ListRowsKeepOrder).
   */
  function ListRows(userId: string, role: Role, f: ListFilters, rows: seq<DocumentRow>): (r: seq<DocumentRow>)
    ensures |r| <= |rows|
    ensures forall d :: d in r <==> d in rows && Listed(userId, role, f, d)
  {
    if rows == [] then []
    else if Listed(userId, role, f, rows[0]) then [rows[0]] + ListRows(userId, role, f, rows[1..])
    else ListRows(userId, role, f, rows[1..])
  }

  /** A listed row comes back as many times as the query returns it; any other row not at all. */
  lemma {:induction false} ListRowsCounts(userId: string, role: Role, f: ListFilters, rows: seq<DocumentRow>, d: DocumentRow)
    ensures multiset(ListRows(userId, role, f, rows))[d] == if Listed(userId, role, f, d) then multiset(rows)[d] else 0
  {
    if rows != [] {
      assert rows == [rows[0]] + rows[1..];
      ListRowsCounts(userId, role, f, rows[1..], d);
    }
  }

  /**
   * The listing keeps the query's order: filtering two runs of rows one
   * after the other is filtering each run and joining the results, and a
   * single row is kept exactly when it is listed.
   */
  lemma {:induction false} ListRowsKeepOrder(userId: string, role: Role, f: ListFilters, a: seq<DocumentRow>, b: seq<DocumentRow>)
    ensures ListRows(userId, role, f, a + b) == ListRows(userId, role, f, a) + ListRows(userId, role, f, b)
    ensures |a| == 1 ==> ListRows(userId, role, f, a) == if Listed(userId, role, f, a[0]) then a else []
  {
    if a != [] {
      var ab := a + b;
      assert ab[0] == a[0] && ab[1..] == a[1..] + b;
      ListRowsKeepOrder(userId, role, f, a[1..], b);
      var rest := ListRows(userId, role, f, a[1..]);
      if Listed(userId, role, f, a[0]) {
        assert ListRows(userId, role, f, ab) == [a[0]] + ListRows(userId, role, f, a[1..] + b);
        assert ListRows(userId, role, f, a) == [a[0]] + rest;
      } else {
        assert ListRows(userId, role, f, ab) == ListRows(userId, role, f, a[1..] + b);
        assert ListRows(userId, role, f, a) == rest;
      }
      if |a| == 1 {
        assert a[1..] == [];
      }
    } else {
      assert a + b == b;
    }
  }

  /**
   * The role filter agrees with the view rule. Whatever it admits the user
   * may view; conversely every viewable row is admitted, except an S0 row
   * without an author shown to a user whose id is the empty string, which
   * the view rule (comparing with "") allows and the query (comparing with
   * NULL) does not.
   */
  lemma RoleFilterIsViewRule(userId: string, role: Role, d: DocumentRow)
    ensures RoleAdmits(userId, role, d) ==> CanView(userId, role, d.status, AuthorOrEmpty(d.authorId))
    ensures CanView(userId, role, d.status, AuthorOrEmpty(d.authorId)) && userId != "" ==> RoleAdmits(userId, role, d)
  {
  }

  /** Every row a listing returns is one the user may view. */
  lemma {:induction false} ListedRowsViewable(userId: string, role: Role, f: ListFilters, rows: seq<DocumentRow>)
    ensures forall d :: d in ListRows(userId, role, f, rows) ==>
      CanView(userId, role, d.status, AuthorOrEmpty(d.authorId))
  {
    forall d | d in ListRows(userId, role, f, rows)
      ensures CanView(userId, role, d.status, AuthorOrEmpty(d.authorId))
    {
      RoleFilterIsViewRule(userId, role, d);
    }
  }

  /** The listing audit details: the three filters as given, absent ones as null. */
  function ListDetails(f: ListFilters): map<string, JsonValue> {
    map["filters" := JObject(map["status" := OptStr(f.status), "discipline" := OptStr(f.discipline),
                                 "search" := OptStr(f.search)])]
  }

  // ---------------------------------------------------------- promotion

  /** A WorkflowTransition request. */
  datatype TransitionRequest = TransitionRequest(state: string, comment: Option<string>, incrementRevision: bool)

  /** What a permitted, legal promotion does: the target, its class, the new revision and the version comment. */
  datatype PromotionPlan = PromotionPlan(target: Status, kind: Option<ActionKind>, newRevision: string, comment: string)

  /**
   * The decisions of promote_document before it touches the document. The
   * role and the upper-cased, stripped target must parse (else 500); the
   * promote rule must permit (else 403); the target must be a legal next
   * status (else 400). A legal promotion always has a class, moves the
   * document strictly forward, and carries the revision and comment the
   * workflow rules give.
   */
  function PlanPromotion(user: Principal, current: Status, authorId: Option<string>, revision: string,
                         req: TransitionRequest): (r: Result<PromotionPlan, Failure>)
    ensures ParseRole(user.role).None? || ParseTarget(req.state).None? ==> r == Err(ServerError)
    ensures ParseRole(user.role).Some? && ParseTarget(req.state).Some? ==>
      var role, target := ParseRole(user.role).value, ParseTarget(req.state).value;
      var permitted := CanPromote(user.id, role, current, AuthorOrEmpty(authorId), target);
      && (r == Err(HttpError(403)) <==> !permitted)
      && (r == Err(HttpError(400)) <==> permitted && !IsLegal(current, target))
      && (r.Ok? <==> permitted && IsLegal(current, target))
    ensures r.Ok? ==>
      && Some(r.value.target) == ParseTarget(req.state)
      && IsLegal(current, r.value.target)
      && current.Rank() < r.value.target.Rank()
      && r.value.kind.Some?
      && r.value.kind == Classify(current, r.value.target)
      && r.value.newRevision == NewRevision(revision, r.value.kind, req.incrementRevision)
      && r.value.comment == FinalComment(req.comment, current, r.value.target, r.value.newRevision)
  {
    var role := ParseRole(user.role);
    var target := ParseTarget(req.state);
    if role.None? || target.None? then Err(ServerError)
    else if !CanPromote(user.id, role.value, current, AuthorOrEmpty(authorId), target.value) then Err(HttpError(403))
    else if !IsLegal(current, target.value) then Err(HttpError(400))
    else
      var t := target.value;
      LegalTransitionsExactly(current, t);
      var kind := Classify(current, t);
      var newRev := NewRevision(revision, kind, req.incrementRevision);
      Ok(PromotionPlan(t, kind, newRev, FinalComment(req.comment, current, t, newRev)))
  }

  /** An archived document can never be promoted, by anyone. */
  lemma ArchivedIsFinal(user: Principal, authorId: Option<string>, revision: string, req: TransitionRequest)
    ensures PlanPromotion(user, Archived, authorId, revision, req).Err?
  {
  }

  /** A Viewer is refused (403) whenever the target parses. */
  lemma ViewerCannotPromote(user: Principal, current: Status, authorId: Option<string>, revision: string,
                            req: TransitionRequest)
    requires ParseRole(user.role) == Some(Viewer) && ParseTarget(req.state).Some?
    ensures PlanPromotion(user, current, authorId, revision, req) == Err(HttpError(403))
  {
  }

  /**
   * A Project Manager may publish any shared document (S1 to S3), whoever
   * wrote it: the result is the publish class with the publish revision.
   */
  lemma ManagerPublishes(user: Principal, current: Status, authorId: Option<string>, revision: string,
                         req: TransitionRequest)
    requires ParseRole(user.role) == Some(ProjectManager)
    requires ParseTarget(req.state) == Some(Published)
    requires current in {Tender, Construction, InfoApproval}
    ensures var r := PlanPromotion(user, current, authorId, revision, req);
            && r.Ok? && r.value.target == Published && r.value.kind == Some(Publishing)
            && r.value.newRevision == NewRevision(revision, Some(Publishing), req.incrementRevision)
  {
    assert IsLegal(current, Published);
    assert CanPromote(user.id, ProjectManager, current, AuthorOrEmpty(authorId), Published);
    var r := PlanPromotion(user, current, authorId, revision, req);
    assert r.Ok?;
    assert Classify(current, Published) == Some(Publishing);
  }

  /**
   * A Project Manager publishing an S3 document at P03 with the target
   * " s4 " and no comment gets S4, revision C03 and the publish comment.
   */
  lemma PublishFromApproval(user: Principal, authorId: Option<string>)
    requires ParseRole(user.role) == Some(ProjectManager)
    ensures PlanPromotion(user, InfoApproval, authorId, "P03", TransitionRequest(" s4 ", None, false))
         == Ok(PromotionPlan(Published, Some(Publishing), "C03", "Published for construction - Published (Rev C03)"))
  {
    var revision, req := "P03", TransitionRequest(" s4 ", None, false);
    LowerCasePaddedTargetParses();
    ManagerPublishes(user, InfoApproval, authorId, revision, req);
    PublishP03();
    var r := PlanPromotion(user, InfoApproval, authorId, revision, req);
    assert r.value.newRevision == "C03";
    assert r.value.comment == FinalComment(None, InfoApproval, Published, "C03");
    PublishCommentC03();
  }

  lemma PublishCommentC03()
    ensures FinalComment(None, InfoApproval, Published, "C03") == "Published for construction - Published (Rev C03)"
  {
    assert IsLegal(InfoApproval, Published);
  }

  /** The entry a refused promotion writes. */
  function PromoteDenial(now: string, user: Principal, documentId: string, name: string,
                         current: Status, target: Status): AuditEntry {
    DocumentEntry(now, "document.promote.denied", user, Some(documentId),
                  Some(map["document_name" := JStr(name), "current_status" := JStr(current.Code()),
                           "target_status" := JStr(target.Code())]), false, 403)
  }

  /** The entry a promotion whose commit fails writes. */
  function PromoteFailed(now: string, user: Principal, documentId: string, error: string,
                         current: Status, target: Status): AuditEntry {
    DocumentEntry(now, "document.promote.failed", user, Some(documentId),
                  Some(map["error" := JStr(error), "transition" := JStr(current.Code() + "->" + target.Code())]),
                  false, 500)
  }

  function KindJson(kind: Option<ActionKind>): JsonValue {
    if kind.Some? then JStr(kind.value.Name()) else JNull
  }

  /** The entry a completed promotion writes. */
  function Promoted(now: string, user: Principal, documentId: string, name: string,
                    current: Status, p: PromotionPlan): AuditEntry {
    DocumentEntry(now, "document.promote", user, Some(documentId),
                  Some(map["document_name" := JStr(name), "previous_status" := JStr(current.Code()),
                           "new_status" := JStr(p.target.Code()), "new_revision" := JStr(p.newRevision),
                           "action_type" := KindJson(p.kind), "comment" := JStr(p.comment)]),
                  true, 200)
  }

  /** The audit entry promote_document writes for a document that exists, if any. */
  function PromoteEntry(now: string, user: Principal, documentId: string, name: string, current: Status,
                        req: TransitionRequest, plan: Result<PromotionPlan, Failure>,
                        commitError: Option<string>): Option<AuditEntry> {
    var target := ParseTarget(req.state);
    if plan == Err(HttpError(403)) && target.Some? then
      Some(PromoteDenial(now, user, documentId, name, current, target.value))
    else if plan.Err? then None
    else if commitError.Some? then
      Some(PromoteFailed(now, user, documentId, commitError.value, current, plan.value.target))
    else Some(Promoted(now, user, documentId, name, current, plan.value))
  }

  // ------------------------------------------------------ delete, download

  /** Only an Admin may delete a document, whoever wrote it and whatever its status. */
  lemma OnlyAdminDeletes(user: Principal, d: DocFacts)
    ensures Authorize(user, Permission.Delete, d).Ok? <==> ParseRole(user.role) == Some(Admin)
  {
  }

  /** Download is permitted exactly where viewing is. */
  lemma DownloadIsView(user: Principal, d: DocFacts)
    ensures Authorize(user, Permission.Download, d) == Authorize(user, View, d)
  {
  }

  /** The entry delete_document writes for a document that exists, if any. */
  function DeleteEntry(now: string, user: Principal, documentId: string, name: string, status: Status,
                       auth: Result<Role, Failure>): Option<AuditEntry> {
    var details := map["document_name" := JStr(name), "document_status" := JStr(status.Code())];
    if auth == Err(HttpError(403)) then
      Some(DocumentEntry(now, "document.delete.denied", user, Some(documentId), Some(details), false, 403))
    else if auth.Err? then None
    else Some(DocumentEntry(now, "document.delete", user, Some(documentId), Some(details), true, 200))
  }

  /** The entry download_document writes for a document that exists, if any. */
  function DownloadEntry(now: string, user: Principal, documentId: string, name: string, status: Status,
                         size: Option<string>, auth: Result<Role, Failure>): Option<AuditEntry> {
    if auth == Err(HttpError(403)) then
      Some(DocumentEntry(now, "document.download.denied", user, Some(documentId),
                         Some(map["document_name" := JStr(name), "document_status" := JStr(status.Code())]), false, 403))
    else if auth.Err? then None
    else Some(DocumentEntry(now, "document.download", user, Some(documentId),
                            Some(map["document_name" := JStr(name), "file_size" := OptStr(size)]), true, 200))
  }

  // ---------------------------------------------------------------- store

  /** The documents table, keyed by document id. */
  class DocumentStore {
    var documents: map<string, Document>

    constructor()
      ensures documents == map[]
    {
      documents := map[];
    }

    /** Every record is filed under its own id. */
    ghost predicate Keyed()
      reads this
    {
      forall id :: id in documents ==> documents[id].id == id
    }

    /** The table's invariant: records are filed under their ids and each one's newest version matches it. */
    ghost predicate Valid()
      reads this, documents.Values
    {
      Keyed() && forall id :: id in documents ==> documents[id].Valid()
    }

    /**
     * upload_document: on success a new record, filed under `newId`, at S0
     * and P01, written by the user, with one "Initial upload" version; on
     * any failure the table is as it was. Exactly the audit entry the
     * outcome calls for is written. `newId` stands for the fresh uuid.
     */
    method UploadDocument(newId: string, user: Principal, form: UploadForm, saved: Result<string, string>,
                          projectExists: bool, commitError: Option<string>, now: string,
                          trail: AuditTrail, delivered: bool)
      returns (r: Result<Document, Failure>)
      requires Valid()
      requires newId !in documents
      modifies this, trail
      ensures Valid()
      ensures r.Err? ==> Err(r.error) == UploadVerdict(user, form, saved, projectExists, commitError)
      ensures r.Err? ==> documents == old(documents)
      ensures r.Ok? ==> saved.Ok? && UploadVerdict(user, form, saved, projectExists, commitError) == Ok(saved.value)
      ensures r.Ok? ==>
        && fresh(r.value)
        && documents == old(documents)[newId := r.value]
        && r.value.id == newId
        && r.value.status == Wip && r.value.revision == "P01"
        && r.value.authorId == Some(user.id)
        && r.value.meta == Metadata(form.name, form.description, Some(form.discipline), Some(ContainerTypeOf(form)),
                                    form.originator, form.projectId, Some(saved.value))
        && r.value.versions == [Version("P01", Wip, Some(user.id), "Initial upload", now)]
        && r.value.Valid()
      ensures trail.entries == old(trail.entries) +
        Written(delivered, UploadEntry(now, user, newId, form, saved, projectExists, commitError))
    {
      var verdict := UploadVerdict(user, form, saved, projectExists, commitError);
      var entry := UploadEntry(now, user, newId, form, saved, projectExists, commitError);
      if entry.Some? {
        trail.Record(entry.value, delivered);
      }
      if verdict.Err? {
        return Err(verdict.error);
      }
      var meta := Metadata(form.name, form.description, Some(form.discipline), Some(ContainerTypeOf(form)),
                           form.originator, form.projectId, Some(verdict.value));
      var d := new Document(newId, meta, Some(user.id), "P01", Wip, now,
                            [Version("P01", Wip, Some(user.id), "Initial upload", now)]);
      documents := documents[newId := d];
      r := Ok(d);
    }

    /**
     * update_document: a missing document is a 404 and a refusal a 403,
     * neither of them logged; otherwise the given fields replace the stored
     * ones and nothing else changes.
     */
    method UpdateDocument(documentId: string, user: Principal, u: MetadataUpdate) returns (r: Result<(), Failure>)
      requires Valid()
      modifies if documentId in documents then {documents[documentId]} else {}
      ensures Valid()
      ensures documentId !in documents ==> r == Err(HttpError(404))
      ensures documentId in documents ==>
        var auth := old(Authorize(user, Update, documents[documentId].Facts()));
        r == (if auth.Ok? then Ok(()) else Err(auth.error))
      ensures documentId in documents && r.Err? ==> unchanged(documents[documentId])
      ensures documentId in documents && r.Ok? ==>
        var d := documents[documentId];
        && d.meta == ApplyUpdate(old(d.meta), u)
        && d.authorId == old(d.authorId) && d.revision == old(d.revision) && d.status == old(d.status)
        && d.versions == old(d.versions) && d.updatedAt == old(d.updatedAt)
    {
      if documentId !in documents {
        return Err(HttpError(404));
      }
      var d := documents[documentId];
      var auth := Authorize(user, Update, d.Facts());
      if auth.Err? {
        return Err(auth.error);
      }
      d.meta := ApplyUpdate(d.meta, u);
      r := Ok(());
    }

    /**
     * delete_document: a missing document is logged and a 404; a refusal
     * (anyone but an Admin) is logged and a 403; a permitted deletion
     * removes the record and is logged.
     */
    method DeleteDocument(documentId: string, user: Principal, now: string, trail: AuditTrail, delivered: bool)
      returns (r: Result<(), Failure>)
      requires Valid()
      modifies this, trail
      ensures Valid()
      ensures documentId !in old(documents) ==>
        && r == Err(HttpError(404))
        && documents == old(documents)
        && trail.entries == old(trail.entries) + Written(delivered, Some(NotFoundEntry(now, "delete", user, documentId)))
      ensures documentId in old(documents) ==>
        var d := old(documents[documentId]);
        var auth := old(Authorize(user, Permission.Delete, d.Facts()));
        && r == (if auth.Ok? then Ok(()) else Err(auth.error))
        && documents == (if auth.Ok? then old(documents) - {documentId} else old(documents))
        && trail.entries == old(trail.entries) +
             Written(delivered, DeleteEntry(now, user, documentId, old(d.meta.name), old(d.status), auth))
    {
      if documentId !in documents {
        trail.Record(NotFoundEntry(now, "delete", user, documentId), delivered);
        return Err(HttpError(404));
      }
      var d := documents[documentId];
      var auth := Authorize(user, Permission.Delete, d.Facts());
      var entry := DeleteEntry(now, user, documentId, d.meta.name, d.status, auth);
      if entry.Some? {
        trail.Record(entry.value, delivered);
      }
      if auth.Err? {
        return Err(auth.error);
      }
      documents := documents - {documentId};
      r := Ok(());
    }

    /**
     * download_document: a missing document is logged and a 404, a refusal
     * is logged and a 403; a permitted download is logged before the file
     * is looked for, so a missing file is a 404 after a logged download.
     * The result is the attachment's file name, the document's name.
     */
    method DownloadDocument(documentId: string, user: Principal, fileFound: bool, now: string,
                            trail: AuditTrail, delivered: bool)
      returns (r: Result<string, Failure>)
      modifies trail
      ensures documentId !in documents ==>
        && r == Err(HttpError(404))
        && trail.entries == old(trail.entries) + Written(delivered, Some(NotFoundEntry(now, "download", user, documentId)))
      ensures documentId in documents ==>
        var d := documents[documentId];
        var auth := Authorize(user, Permission.Download, d.Facts());
        && r == (if auth.Err? then Err(auth.error) else if fileFound then Ok(d.meta.name) else Err(HttpError(404)))
        && trail.entries == old(trail.entries) +
             Written(delivered, DownloadEntry(now, user, documentId, d.meta.name, d.status, d.meta.size, auth))
    {
      if documentId !in documents {
        trail.Record(NotFoundEntry(now, "download", user, documentId), delivered);
        return Err(HttpError(404));
      }
      var d := documents[documentId];
      var auth := Authorize(user, Permission.Download, d.Facts());
      var entry := DownloadEntry(now, user, documentId, d.meta.name, d.status, d.meta.size, auth);
      if entry.Some? {
        trail.Record(entry.value, delivered);
      }
      if auth.Err? {
        return Err(auth.error);
      }
      if !fileFound {
        return Err(HttpError(404));
      }
      r := Ok(d.meta.name);
    }

    /**
     * get_documents: `rows` is what the query reads, each stored document's
     * row once, in the query's order; the result is the rows the user may
     * see that pass the filters, in that order. The whole request runs inside an AuditLogger, so
     * one "document.list" entry is written either way, with outcome 500
     * when the user's role does not parse.
     */
    method ListDocuments(user: Principal, f: ListFilters, rows: seq<DocumentRow>, now: string,
                         trail: AuditTrail, delivered: bool)
      returns (r: Result<seq<DocumentRow>, Failure>)
      requires forall d :: d in rows ==> d.id in documents && documents[d.id].Row() == d
      requires forall id :: id in documents ==> documents[id].Row() in rows
      requires forall i, j :: 0 <= i < j < |rows| ==> rows[i].id != rows[j].id
      modifies trail
      ensures ParseRole(user.role).None? ==> r == Err(ServerError)
      ensures ParseRole(user.role).Some? ==> r == Ok(ListRows(user.id, ParseRole(user.role).value, f, rows))
      ensures r.Ok? ==> forall id :: id in documents ==>
        (documents[id].Row() in r.value <==> Listed(user.id, ParseRole(user.role).value, f, documents[id].Row()))
      ensures trail.entries == old(trail.entries) +
        Written(delivered, Some(DocumentEntry(now, "document.list", user, None, Some(ListDetails(f)), r.Ok?,
                                              if r.Ok? then 200 else 500)))
    {
      var logger := new AuditLogger("document.list", user, "document", None, Some(ListDetails(f)));
      var role := ParseRole(user.role);
      var exc: Option<Raised>;
      if role.None? {
        r := Err(ServerError);
        exc := Some(RaisedBy(ServerError));
      } else {
        r := Ok(ListRows(user.id, role.value, f, rows));
        exc := None;
      }
      var _ := logger.Exit(exc, now, trail, delivered);
    }

    /**
     * promote_document: a missing document is logged and a 404. Otherwise
     * the plan decides; a refusal (403) is logged, a bad role or target
     * (500) and an illegal transition (400) are not. A legal promotion
     * whose commit fails is logged and a 500, and leaves the document as
     * it was (the session is rolled back). A committed one moves the
     * document to the target status and new revision, appends the matching
     * version, and is logged.
     */
    method PromoteDocument(documentId: string, user: Principal, req: TransitionRequest, commitError: Option<string>,
                           now: string, trail: AuditTrail, delivered: bool)
      returns (r: Result<PromotionPlan, Failure>)
      requires Valid()
      modifies (if documentId in documents then {documents[documentId]} else {}), trail
      ensures Valid()
      ensures documentId !in documents ==>
        && r == Err(HttpError(404))
        && trail.entries == old(trail.entries) + Written(delivered, Some(NotFoundEntry(now, "promote", user, documentId)))
      ensures documentId in documents ==>
        var d := documents[documentId];
        var plan := old(PlanPromotion(user, d.status, d.authorId, d.revision, req));
        && r == (if plan.Ok? && commitError.Some? then Err(HttpError(500)) else plan)
        && trail.entries == old(trail.entries) +
             Written(delivered, PromoteEntry(now, user, documentId, old(d.meta.name), old(d.status), req, plan, commitError))
      ensures documentId in documents && r.Err? ==> unchanged(documents[documentId])
      ensures documentId in documents && r.Ok? ==>
        var d := documents[documentId];
        && d.status == r.value.target
        && d.revision == r.value.newRevision
        && d.updatedAt == now
        && d.versions == old(d.versions) + [Version(r.value.newRevision, r.value.target, Some(user.id), r.value.comment, now)]
        && d.meta == old(d.meta) && d.authorId == old(d.authorId)
    {
      if documentId !in documents {
        trail.Record(NotFoundEntry(now, "promote", user, documentId), delivered);
        return Err(HttpError(404));
      }
      var d := documents[documentId];
      var plan := PlanPromotion(user, d.status, d.authorId, d.revision, req);
      var entry := PromoteEntry(now, user, documentId, d.meta.name, d.status, req, plan, commitError);
      r := ApplyPromotion(documentId, plan, entry, commitError, user.id, now, trail, delivered);
    }

    /**
     * The effects of a planned promotion on a stored record: the entry is
     * logged, and a plan that commits advances the record; the other
     * records, and the table's invariant, are kept.
     */
    method ApplyPromotion(documentId: string, plan: Result<PromotionPlan, Failure>, entry: Option<AuditEntry>,
                          commitError: Option<string>, userId: string, now: string, trail: AuditTrail, delivered: bool)
      returns (r: Result<PromotionPlan, Failure>)
      requires Valid() && documentId in documents
      modifies documents[documentId], trail
      ensures Valid()
      ensures r == (if plan.Ok? && commitError.Some? then Err(HttpError(500)) else plan)
      ensures trail.entries == old(trail.entries) + Written(delivered, entry)
      ensures r.Err? ==> unchanged(documents[documentId])
      ensures r.Ok? ==>
        var d := documents[documentId];
        && d.status == r.value.target && d.revision == r.value.newRevision && d.updatedAt == now
        && d.versions == old(d.versions) + [Version(r.value.newRevision, r.value.target, Some(userId), r.value.comment, now)]
        && d.meta == old(d.meta) && d.authorId == old(d.authorId)
    {
      if entry.Some? {
        trail.Record(entry.value, delivered);
      }
      r := if plan.Ok? && commitError.Some? then Err(HttpError(500)) else plan;
      if r.Ok? {
        var d := documents[documentId];
        assert forall k :: k in documents && k != documentId ==> documents[k] != d;
        d.Advance(r.value, userId, now);
      }
    }
  }
}
