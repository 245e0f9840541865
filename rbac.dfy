/**
 * The role/permission table and the document ownership predicates of the
 * CDE: who may view, download, update, delete or promote a document, given
 * the acting user's id and role and the document's status and author.
 * Work in progress (S0) is the one status restricted to its author and Admin.
 */
module Rbac {
  import opened Wrappers

  /** UserRole; the stored value is the role's name. */
  datatype Role = Admin | ProjectManager | Viewer {
    function Name(): string {
      match this
      case Admin => "Admin"
      case ProjectManager => "Project Manager"
      case Viewer => "Viewer"
    }
  }

  /** DocumentStatus, the ISO 19650 container states S0 to S5. */
  datatype Status = Wip | Tender | Construction | InfoApproval | Published | Archived {
    function Code(): string {
      match this
      case Wip => "S0"
      case Tender => "S1"
      case Construction => "S2"
      case InfoApproval => "S3"
      case Published => "S4"
      case Archived => "S5"
    }

    /** Position in the lifecycle, 0 for S0 up to 5 for S5. */
    function Rank(): nat {
      match this
      case Wip => 0
      case Tender => 1
      case Construction => 2
      case InfoApproval => 3
      case Published => 4
      case Archived => 5
    }
  }

  datatype Permission = View | Download | Upload | Update | Delete | Promote | Share {
    function Value(): string {
      match this
      case View => "view"
      case Download => "download"
      case Upload => "upload"
      case Update => "update"
      case Delete => "delete"
      case Promote => "promote"
      case Share => "share"
    }
  }

  /** UserRole(s): the role whose value is `s`, or None where Python raises ValueError. */
  function ParseRole(s: string): (r: Option<Role>)
    ensures r.Some? ==> r.value.Name() == s
    ensures forall role: Role :: role.Name() == s ==> r == Some(role)
  {
    if s == "Admin" then Some(Admin)
    else if s == "Project Manager" then Some(ProjectManager)
    else if s == "Viewer" then Some(Viewer)
    else None
  }

  /** DocumentStatus(s): the status whose code is `s`, or None where Python raises ValueError. */
  function ParseStatus(s: string): (r: Option<Status>)
    ensures r.Some? ==> r.value.Code() == s
    ensures forall st: Status :: st.Code() == s ==> r == Some(st)
  {
    if s == "S0" then Some(Wip)
    else if s == "S1" then Some(Tender)
    else if s == "S2" then Some(Construction)
    else if s == "S3" then Some(InfoApproval)
    else if s == "S4" then Some(Published)
    else if s == "S5" then Some(Archived)
    else None
  }

  /** ROLE_PERMISSIONS. */
  function RolePermissions(role: Role): set<Permission> {
    match role
    case Admin => {View, Download, Upload, Update, Delete, Promote, Share}
    case ProjectManager => {View, Download, Upload, Update, Promote, Share}
    case Viewer => {View, Download}
  }

  /**
   * has_permission: Admin holds all seven permissions, a Project Manager all
   * but delete, a Viewer only view and download.
   */
  function HasPermission(role: Role, perm: Permission): (r: bool)
    ensures role == Admin ==> r
    ensures role == ProjectManager ==> (r <==> perm != Delete)
    ensures role == Viewer ==> (r <==> perm == View || perm == Download)
  {
    assert perm.View? || perm.Download? || perm.Upload? || perm.Update? || perm.Delete? || perm.Promote? || perm.Share?;
    perm in RolePermissions(role)
  }

  /** can_view_document: Admin sees everything, others everything but other people's S0. */
  function CanView(userId: string, role: Role, status: Status, authorId: string): (r: bool)
    ensures role == Admin ==> r
    ensures status != Wip ==> r
    ensures role != Admin && status == Wip ==> (r <==> authorId == userId)
  {
    if role == Admin then true
    else if status != Wip then true
    else authorId == userId
  }

  /**
   * can_download_document: download permission plus the view rule; as every
   * role holds download, it coincides with can_view_document.
   */
  function CanDownload(userId: string, role: Role, status: Status, authorId: string): (r: bool)
    ensures r == CanView(userId, role, status, authorId)
  {
    if !HasPermission(role, Download) then false
    else CanView(userId, role, status, authorId)
  }

  /**
   * can_update_document: never a Viewer, always Admin; a Project Manager
   * only as author on S0 and always on the later statuses.
   */
  function CanUpdate(userId: string, role: Role, status: Status, authorId: string): (r: bool)
    ensures role == Viewer ==> !r
    ensures role == Admin ==> r
    ensures role == ProjectManager && status == Wip ==> (r <==> authorId == userId)
    ensures role == ProjectManager && status != Wip ==> r
  {
    if !HasPermission(role, Update) then false
    else if role == Admin then true
    else if status == Wip then authorId == userId
    else if role == ProjectManager then true
    else false
  }

  /** can_delete_document: Admin only, whoever wrote the document and whatever its status. */
  function CanDelete(userId: string, role: Role, status: Status, authorId: string): (r: bool)
    ensures r <==> role == Admin
  {
    if !HasPermission(role, Delete) then false
    else role == Admin
  }

  /**
   * can_promote_document: the target status is not consulted, and the
   * answer is the update rule's for every input.
   */
  function CanPromote(userId: string, role: Role, status: Status, authorId: string, target: Status): (r: bool)
    ensures r == CanUpdate(userId, role, status, authorId)
  {
    if !HasPermission(role, Promote) then false
    else if role == Admin then true
    else if status == Wip then authorId == userId
    else if role == ProjectManager then true
    else false
  }

  /** get_visible_statuses: all six for Admin, all but S0 for the other roles. */
  function VisibleStatuses(role: Role): (r: seq<Status>)
    ensures role == Admin ==> r == [Wip, Tender, Construction, InfoApproval, Published, Archived]
    ensures role != Admin ==> forall s: Status :: s in r <==> !s.Wip?
    ensures forall i, j :: 0 <= i < j < |r| ==> r[i].Rank() < r[j].Rank()
  {
    assert forall s: Status :: s.Wip? || s.Tender? || s.Construction? || s.InfoApproval? || s.Published? || s.Archived?;
    if role == Admin then [Wip, Tender, Construction, InfoApproval, Published, Archived]
    else [Tender, Construction, InfoApproval, Published, Archived]
  }

  /** Viewer's permissions are a subset of a Project Manager's, which are a subset of Admin's. */
  lemma PermissionsNested()
    ensures RolePermissions(Viewer) <= RolePermissions(ProjectManager) <= RolePermissions(Admin)
    ensures RolePermissions(Viewer) < RolePermissions(ProjectManager) < RolePermissions(Admin)
  {
    assert Upload in RolePermissions(ProjectManager) - RolePermissions(Viewer);
    assert Delete in RolePermissions(Admin) - RolePermissions(ProjectManager);
  }

  /**
   * The statuses listed for a role are exactly those a user who is not the
   * author may view.
   */
  lemma VisibleStatusesAreViewable(userId: string, role: Role, authorId: string, s: Status)
    requires userId != authorId
    ensures s in VisibleStatuses(role) <==> CanView(userId, role, s, authorId)
  {
  }

  /**
   * A document without an author (stored as "") is never owned by a user
   * with a non-empty id: at S0 only Admin may see, update or promote it.
   */
  lemma MissingAuthorOwnsNothing(userId: string, role: Role, target: Status)
    requires userId != ""
    ensures CanView(userId, role, Wip, "") <==> role == Admin
    ensures CanUpdate(userId, role, Wip, "") <==> role == Admin
    ensures CanPromote(userId, role, Wip, "", target) <==> role == Admin
  {
  }

  /** Every permission held by a role is also held by every more senior role. */
  lemma SeniorityMonotone(perm: Permission)
    ensures HasPermission(Viewer, perm) ==> HasPermission(ProjectManager, perm)
    ensures HasPermission(ProjectManager, perm) ==> HasPermission(Admin, perm)
  {
  }

  /** The names and codes read back to the enum members they came from. */
  lemma NamesRoundTrip(role: Role, s: Status)
    ensures ParseRole(role.Name()) == Some(role)
    ensures ParseStatus(s.Code()) == Some(s)
  {
  }
}
