# CDE document control core, modelled in Dafny

This project models the access-control and document-control core of a
Common Data Environment (CDE) backend. The backend follows the ISO 19650
container lifecycle:

- **Roles and permissions** (`rbac.dfy`, module `Rbac`): three roles (Admin, Project Manager,
  Viewer) and seven permissions. Six ISO 19650 statuses, S0 (work in progress) to S5 (archived).
  The view, download, update, delete and promote rules, and the statuses a role may see in listings.
- **Promotion workflow** (`workflow.dfy`, module `Workflow`): the legal transitions between
  statuses, and how each is classified (share, publish, archive, coordinate). The revision
  renumbering (P/A-series become C-series on publication) and the comment recorded on the new version.
- **Audit middleware** (`middleware.dfy`, module `Middleware`): the audit entry and its JSON line.
  The log it is appended to (`AuditTrail`), where a failed write is swallowed. The `AuditLogger`
  context manager, and the three request gates: by permission, by role, and by document.
- **Document endpoints** (`documents.dfy`, module `Documents`): listing with role and query
  filters, upload, metadata update, delete, download and promotion. These act on a store of
  `Document` objects whose fields are updated in place. Each document keeps its current status
  and revision equal to its latest version record.
- **Audit endpoints** (`audit_router.dfy`, module `AuditRouter`): entries submitted by the
  frontend, written with the authenticated identity. Reading the day files back with filters and
  a limit, and tallying the last days into dashboard statistics.

`wrappers.dfy`, `text.dfy` and `json.dfy` hold the Option/Result types, the ASCII string
operations used (`upper`, `strip`, `startswith`, `in`, `split`, `%02d`), and parsed JSON values
with Python's `dict.get`.

Inputs the program gets from its environment become parameters:

- the clock becomes `now`;
- whether the audit file write succeeded becomes `delivered` or `fileOpens`;
- whether the uploaded file was saved becomes `saved`;
- a failed database commit becomes `commitError`;
- whether the file to download was found becomes `fileFound`;
- the rows of the listing query, in its order, become `rows`;
- the day files to read, in order, become `files` or `days`.

An unhandled `ValueError` (a role or status string that is not a member of its enum) is a 500,
modelled as `ServerError`.

## Model

| member | source | states |
|---|---|---|
| Rbac.ParseRole | backend/app/core/rbac.py:12-16 | UserRole(s) succeeds exactly for the three role names and gives the role named s |
| Rbac.ParseStatus | backend/app/core/rbac.py:19-26 | DocumentStatus(s) succeeds exactly for S0..S5 and gives the status with that code |
| Rbac.NamesRoundTrip | backend/app/core/rbac.py:12-26 | every role name and status code parses back to itself |
| Rbac.HasPermission | backend/app/core/rbac.py:41-77 | Admin holds every permission, a Project Manager all but delete, a Viewer only view and download |
| Rbac.PermissionsNested | backend/app/core/rbac.py:41-63 | Viewer's permissions are strictly contained in the Project Manager's, which are strictly contained in Admin's |
| Rbac.SeniorityMonotone | backend/app/core/rbac.py:41-77 | a permission held by a junior role is held by every senior one |
| Rbac.CanView | backend/app/core/rbac.py:80-113 | Admin sees everything, anyone sees a non-S0 document, a non-Admin sees an S0 document only as its author |
| Rbac.CanDownload | backend/app/core/rbac.py:116-139 | download follows exactly the view rule |
| Rbac.CanUpdate | backend/app/core/rbac.py:142-176 | a Viewer never updates, Admin always, a Project Manager any non-S0 document and an S0 one only as its author |
| Rbac.CanDelete | backend/app/core/rbac.py:179-202 | deletion is allowed exactly for Admin |
| Rbac.CanPromote | backend/app/core/rbac.py:205-241 | promotion follows exactly the update rule, whatever the target |
| Rbac.VisibleStatuses | backend/app/core/rbac.py:244-271 | Admin sees all six statuses, others all but S0, listed in lifecycle order |
| Rbac.VisibleStatusesAreViewable | backend/app/core/rbac.py:80-113 | for a non-author, a status is in the visible list exactly when the view rule allows it |
| Rbac.MissingAuthorOwnsNothing | backend/app/core/rbac.py:80-241 | with no recorded author (the `or ""` of callers), an S0 document is viewable, updatable and promotable only by Admin |
| Workflow.AllowedTargets | backend/app/routers/documents.py:593-600 | no status reaches itself, every target lies strictly later in the lifecycle, and only S5 has no targets |
| Workflow.LegalTransitionsExactly | backend/app/routers/documents.py:593-614 | the legal transitions are S0 to S1..S3, S1..S3 to a later status up to S4, and S4 to S5 |
| Workflow.NoSelfTransition | backend/app/routers/documents.py:616-621 | the same-state guard is never reached, since no transition is legal to the current status |
| Workflow.ChainsMoveForward | backend/app/routers/documents.py:593-614 | a chain of legal promotions gains one lifecycle rank per step, so no chain exceeds six statuses |
| Workflow.Classify | backend/app/routers/documents.py:623-632 | every legal transition has a class: share exactly from S0, publish exactly to S4, archive exactly to S5, coordinate otherwise |
| Workflow.TargetCodesParse | backend/app/routers/documents.py:550 | each status code is accepted as the requested target |
| Workflow.LowerCasePaddedTargetParses | backend/app/routers/documents.py:550 | a lower-case target with surrounding spaces is normalised to its status |
| Workflow.ParseRevision | backend/app/routers/documents.py:640-643 | a matched revision splits into a non-empty letter prefix and an all-digit number |
| Workflow.ParseComposed | backend/app/routers/documents.py:640-643 | letters followed by digits are always matched, with that prefix and number |
| Text.Pad2 | backend/app/routers/documents.py:647-653 | `%02d` writes at least two digits, with no leading zero beyond the second place, that read back as the number |
| Text.Padded2Unique | backend/app/routers/documents.py:647-653 | `%02d` output is the only digit string of that form with its value: any such string is `%02d` of what it reads as |
| Workflow.ParseFormatted | backend/app/routers/documents.py:647-653 | a prefix with a `%02d` number reads back as that prefix and number, and is a formatted revision |
| Workflow.FormattedDetermined | backend/app/routers/documents.py:647-664 | a formatted revision is fixed by its parts: the only one with prefix p and number n is p followed by `%02d` of n |
| Workflow.NewRevision | backend/app/routers/documents.py:634-666 | publishing turns P/A into C with the same number, other prefixes are upper-cased and incremented, unreadable ones become C01; otherwise an increment request upper-cases and increments (unreadable becomes P01), and no request keeps the revision; every rewritten revision is formatted, so its digits are exactly `%02d` of the stated number |
| Workflow.PublishedRevision | backend/app/routers/documents.py:639-656 | the publication renumbering: the prefix and number of the result as above, written as `%02d` (so P007 gives exactly C07) |
| Workflow.IncrementedRevision | backend/app/routers/documents.py:658-666 | the explicit increment: the upper-cased prefix and the next number, written as `%02d`; P01 for an unreadable revision |
| Workflow.PublishP02 | backend/app/routers/documents.py:646-647 | publishing P02 gives C02 |
| Workflow.PublishP03 | backend/app/routers/documents.py:646-647 | publishing P03 gives C03 |
| Workflow.PublishA05 | backend/app/routers/documents.py:648-650 | publishing A05 gives C05, even when an increment is also requested |
| Workflow.PublishP007 | backend/app/routers/documents.py:640-647 | publishing P007 gives C07 (the number is re-padded to two digits) |
| Workflow.PublishX07 | backend/app/routers/documents.py:651-653 | publishing X07 gives X08 |
| Workflow.PublishUnreadable | backend/app/routers/documents.py:654-656 | publishing an unreadable revision gives C01 |
| Workflow.FinalComment | backend/app/routers/documents.py:673-693 | a non-empty request comment is kept; otherwise each legal transition gets its class's text, and the result is never empty |
| Middleware.MakeEntry | backend/app/core/middleware.py:73-136 | an entry carries the given action, user, resource, outcome and timestamp, with `details or {}` |
| Middleware.EntryJsonShape | backend/app/core/middleware.py:106-123 | every log line has the six top-level keys and the user, resource and outcome sub-objects with their keys |
| Middleware.AuditTrail.Record | backend/app/core/middleware.py:125-136 | a delivered entry is appended to the log; a failed write leaves the log as it was and raises nothing |
| Middleware.AuditTrail.Enforce | backend/app/core/middleware.py:201-223 | a gate's result is returned unchanged and its denial entry, if any, is logged |
| Middleware.PermissionGate | backend/app/core/middleware.py:184-223 | the user passes exactly when their role holds the permission; otherwise a `permission.denied` entry and a 403 |
| Middleware.RolesGate | backend/app/core/middleware.py:226-264 | the user passes exactly when their role is among the allowed ones; otherwise a `role.denied` entry listing them and a 403 |
| Middleware.DocumentPermits | backend/app/core/middleware.py:313-343 | the per-permission dispatch: promote always, upload and share never, view and download by the view rule, update by the update rule, delete for Admin |
| Middleware.DocumentPermissionGate | backend/app/core/middleware.py:267-377 | as written: a missing document is a 404 and a refusal is logged, but a non-Admin author of an S0 document passes although refused |
| Middleware.AuthorPassesDeniedGate | backend/app/core/middleware.py:362-375 | a Viewer updating their own S0 document is let through while a `document.update.denied` entry is logged |
| Middleware.StrictDocumentPermissionGate | backend/app/core/middleware.py:345-373 | corrected gate: the user passes exactly when the dispatch permits, and every refusal is a logged 403 |
| Middleware.StrictGateDiffersOnlyOnAuthorPassThrough | backend/app/core/middleware.py:362-375 | the two gates log the same denials and differ only for the author of an S0 document |
| Middleware.ExitOutcome | backend/app/core/middleware.py:162-181 | no exception is a success with 200; an HTTP exception keeps its code; any other exception is a 500 |
| Middleware.FailureOutcome | backend/app/core/middleware.py:162-181 | every failure of the model is logged as unsuccessful with its own status code, or 500 |
| Middleware.AuditLogger.ExitEntry | backend/app/core/middleware.py:139-181 | the exit entry carries the logger's action, user, resource and details with the outcome of the exit |
| Middleware.AuditLogger.Exit | backend/app/core/middleware.py:162-181 | leaving the context logs one entry and never suppresses the exception |
| Documents.Authorize | backend/app/routers/documents.py:383-394 | a role that does not parse is a 500; the user is authorized exactly when the dispatch permits |
| Documents.OnlyAdminDeletes | backend/app/routers/documents.py:462-481 | deletion is authorized exactly for Admin |
| Documents.DownloadIsView | backend/app/routers/documents.py:785-806 | the download decision equals the view decision |
| Documents.ContainerTypeOf | backend/app/routers/documents.py:196 | an omitted container type is M3 |
| Documents.UploadVerdict | backend/app/routers/documents.py:211-328 | success exactly when the role may upload, the file was saved, a given project exists and the commit succeeds, with the saved size; on the first failing check: 500 for a role that does not parse, 403 without upload permission, 500 for an unsaved file, 400 for a missing project, 500 for a failed commit |
| Documents.ViewerCannotUpload | backend/app/routers/documents.py:211-228 | a Viewer's upload is a 403 and is logged |
| Documents.DocumentStore.UploadDocument | backend/app/routers/documents.py:190-367 | a permitted upload adds one fresh S0 document at P01 with one "Initial upload" version; any failure leaves the store unchanged; the matching entry is logged; the store's invariant (records filed under their ids, each matching its newest version) is kept |
| Documents.ApplyUpdate | backend/app/routers/documents.py:396-402 | each given field replaces the stored one, omitted fields are kept, nothing else changes |
| Documents.ApplyUpdateIdempotent | backend/app/routers/documents.py:396-402 | applying the same update twice is applying it once, and the empty update changes nothing |
| Documents.DocumentStore.UpdateDocument | backend/app/routers/documents.py:370-430 | a missing document is a 404; a refused update is a 403 and changes nothing; a permitted one changes only the metadata; the store's invariant is kept |
| Documents.ListRows | backend/app/routers/documents.py:66-85 | a row is returned exactly when it passes the role filter and every query filter that is set |
| Documents.ListRowsCounts | backend/app/routers/documents.py:66-85 | each listed row comes back as many times as the query returns it, any other row never |
| Documents.ListRowsKeepOrder | backend/app/routers/documents.py:66-85 | filtering keeps the query's order: the listing of two runs of rows is the two listings joined, and a single row is kept exactly when listed |
| Documents.RoleFilterIsViewRule | backend/app/routers/documents.py:66-75 | the listing's role filter is the view rule (the converse for a non-empty user id) |
| Documents.ListedRowsViewable | backend/app/routers/documents.py:66-83 | every listed row is one the user may view |
| Documents.DocumentStore.ListDocuments | backend/app/routers/documents.py:41-115 | for a parseable role, the listed rows of the stored documents in the query's order (a stored document is returned exactly when it is listed); a 500 otherwise; one `document.list` entry with its outcome |
| Documents.DocumentStore.DeleteDocument | backend/app/routers/documents.py:433-504 | a missing document is a logged 404; an authorized delete removes exactly that document; the matching entry is logged; the store's invariant is kept |
| Documents.DocumentStore.DownloadDocument | backend/app/routers/documents.py:762-844 | a refusal keeps its error, a permitted download gives the file or a 404, and the download is logged before the file is looked for |
| Documents.PlanPromotion | backend/app/routers/documents.py:549-693 | 500 for an unparseable role or target; 403 exactly when the promote rule refuses; 400 exactly for an illegal transition; otherwise the plan moves strictly forward with its class, revision and comment |
| Documents.ArchivedIsFinal | backend/app/routers/documents.py:598 | an archived document can never be promoted |
| Documents.ViewerCannotPromote | backend/app/routers/documents.py:554-582 | a Viewer's promotion is always a 403 |
| Documents.ManagerPublishes | backend/app/routers/documents.py:593-666 | a Project Manager may publish any shared document, and the revision is renumbered for publication |
| Documents.PublishFromApproval | backend/app/routers/documents.py:549-693 | a Project Manager publishing an S3 document at P03 with target " s4 " gets S4, C03 and the publication comment |
| Documents.PublishCommentC03 | backend/app/routers/documents.py:686-687 | the publication comment for C03 |
| Documents.Document.Advance | backend/app/routers/documents.py:668-704 | status, revision and time are updated and one version is appended, keeping status and revision equal to the latest version |
| Documents.DocumentStore.PromoteDocument | backend/app/routers/documents.py:507-759 | a missing document is a logged 404; a plan or a failed commit leaves the document unchanged; a successful promotion advances it; the matching entry is logged; the store's invariant is kept |
| AuditRouter.WithVerifiedIdentity | backend/app/routers/audit.py:69-76 | the written entry always carries the authenticated user's id, and is untouched exactly when it already did |
| AuditRouter.VerifiedIdentityIdempotent | backend/app/routers/audit.py:69-76 | verifying the identity twice is verifying it once |
| AuditRouter.LogFile.CreateAuditLog | backend/app/routers/audit.py:50-85 | an opened file gets the verified entry appended; otherwise a 500 and no change |
| AuditRouter.LogFile.BatchAuditLogs | backend/app/routers/audit.py:88-120 | every entry is appended in order with the verified identity and the count is the number of entries; a 500 and no change when the file does not open |
| AuditRouter.SubmittedEntriesFoundByAuthor | backend/app/routers/audit.py:69-78 | an entry written through these endpoints is found again by filtering on its author's id |
| AuditRouter.WrittenEntriesFilterCleanly | backend/app/routers/audit.py:169-175 | a line written by the middleware never raises in the reader, and passes exactly when the user, action prefix and resource type filters agree |
| AuditRouter.ScanLines | backend/app/routers/audit.py:165-184 | reading a file never keeps more entries than it has lines |
| AuditRouter.ScanPrefix | backend/app/routers/audit.py:165-184 | what reading part of a file keeps begins what reading the whole file keeps, and a raise ends the file |
| AuditRouter.MatchingPrefix | backend/app/routers/audit.py:161-194 | what the first days keep begins what all days keep |
| AuditRouter.SlicePrefix | backend/app/routers/audit.py:196-198 | Python's `logs[:limit]` is a front part of the list: the first `limit` entries (all if fewer) for a non-negative limit, and all but the last `-limit` (none if fewer) for a negative one |
| AuditRouter.ReadDay | backend/app/routers/audit.py:165-184 | one file's lines are read until one raises or the limit is reached, and what is held is a prefix of what the file would give |
| AuditRouter.GetAuditLogs | backend/app/routers/audit.py:123-206 | non-Admins get a 403; Admins get the first `limit` filtered entries in day order, none for a limit that is not positive |
| AuditRouter.LogsWithinLimit | backend/app/routers/audit.py:177-198 | the reader returns at most `limit` entries, each of which passed the filters |
| AuditRouter.InitialStats | backend/app/routers/audit.py:228-244 | the six document verbs start at zero and no day has activity |
| AuditRouter.CountAction | backend/app/routers/audit.py:256-283 | one entry raises its document verb, its login count, the denial count when it mentions "denied" or "failed", and its day's activity by one |
| AuditRouter.LoginActionsAreAuth | backend/app/routers/audit.py:270-274 | the two login actions are counted in the authentication branch |
| AuditRouter.GetAuditStats | backend/app/routers/audit.py:209-290 | non-Admins other than Project Managers get a 403; otherwise the tally of the given days |
| AuditRouter.TallyKeepsVerbs | backend/app/routers/audit.py:262-267 | the document action counts always have exactly the initial six keys |
| AuditRouter.DailyActivityDates | backend/app/routers/audit.py:281-283 | only the dates of the days read gain an activity count |
| AuditRouter.FileDailyCount | backend/app/routers/audit.py:254-288 | reading one day file raises that date's activity by the entries counted in it (the JSON lines before the first entry that raises) and no other date's; the date gains a key exactly when something was counted |
| AuditRouter.DaysDailyCount | backend/app/routers/audit.py:246-288 | over the days read, each date's activity grows by the entries counted on that date, and a date gains a key exactly when some were |
| AuditRouter.StatsDailyActivity | backend/app/routers/audit.py:246-290 | in the dashboard, a date has an activity count exactly when entries were counted on it, and the count is their number; with distinct dates, the number counted in that date's own file |
| AuditRouter.DistinctDayCount | backend/app/routers/audit.py:246-252 | when the days read have distinct dates, a date's counted entries are those of its own file |
| AuditRouter.DocumentDenialCounted | backend/app/routers/audit.py:262-278 | a document refusal logged by the middleware is counted under its verb and as a permission denial |

## Left out

- Storage: files, the database and the network are not modelled. Whether a file was saved or found, whether a project exists and whether a commit failed are parameters. The ORM session, refresh and response formatting are not modelled.
- Time: the clock is a parameter. The date arithmetic that picks the day files for the log reader and the stats is left out, and callers pass the days in order. The `filtered` echo of the log reader is left out. The request duration (`duration_ms`, a float) is left out of the context manager's entry.
- UUID generation: the new document id is a parameter, required to be unused.
- Text: `upper` and `strip` cover ASCII only. The listing's `ilike` search is a case-insensitive substring test; `%` and `_` in the search text are not treated as wildcards.
- Documents.DocumentStore.UpdateDocument: does not model a failed commit or the database's automatic `updated_at` refresh. Delete likewise does not model a failed commit.
- Documents.DocumentStore.ListDocuments: the listing order (newest `created_at` first) is not computed; `rows` holds each stored document's row once, in the order the query gives. The version history attached to each row is left out.
- Stored statuses are valid codes by construction (`Status` has the six members only). A stored status outside S0..S5 would make `DocumentStatus(doc.status)` raise, a 500, in update_document, delete_document, promote_document, download_document and the document gate of the middleware; get_documents compares and echoes the stored string without parsing it, so it would list such a row. Neither case is modelled.
- Workflow.ParseRevision: reads ASCII digits only, and requires the digits to end the string; Python's `\d` also accepts other Unicode decimal digits, and `$` also matches before a final newline, so a revision such as "P01\n" or one with non-ASCII digits would be read by the code and is treated as unreadable here.
- The single-document view, thumbnail and preview endpoints are not part of this model.
- AuditRouter.LogFile.BatchAuditLogs: does not model a write that fails part-way through a batch, after which earlier lines stay written.
- AuditRouter.GetAuditStats: `status_breakdown` is always empty in the source and is not represented.
- Log lines that are not valid JSON are `Malformed`; JSON floating-point numbers are not represented.

Where the written description of the system and the code disagree, the model follows the code:

- Only refusals are logged by the gates, and update logs nothing.
- Admin can delete documents.
- A revision's prefix may have several letters and its number several digits (P007 is read as P with 7).
- The stats count every action mentioning "failed" (a failed upload or login) as a permission denial.

## Findings

| source | as written | input that shows it | evidently intended | confidence | as-written member | corrected member |
|---|---|---|---|---|---|---|
| backend/app/core/middleware.py:362-375 | after logging a refusal, a non-Admin who is the author of an S0 document returns without raising, so the refused request goes through | a Viewer with id u1 asking to update their own S0 document d1: `document.update.denied` is logged and the user is returned | a refused request is always a 403 (the logged denial says so) | not executed | Middleware.AuthorPassesDeniedGate | Middleware.StrictDocumentPermissionGate |
