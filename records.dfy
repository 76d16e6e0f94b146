/**
 * The stored records other than the enhanced pages: accounts, registration
 * requests, simple (admin) pages, the legacy editor's elements and layouts,
 * and audit log entries.
 */
module Records {
  import opened Basics

  datatype Role = Admin | Viewer | Developer

  /** The string a role is stored and compared under. */
  function RoleName(r: Role): (s: string)
    ensures s in ["admin", "viewer", "developer"]
  {
    match r
    case Admin => "admin"
    case Viewer => "viewer"
    case Developer => "developer"
  }

  lemma RoleNameInjective(a: Role, b: Role)
    ensures RoleName(a) == RoleName(b) <==> a == b
  {
  }

  /**
   * An account. `phoneNumber` and `assignedPages` may be missing in records
   * written before those fields existed.
   */
  datatype User = User(
    id: string,
    name: string,
    email: string,
    password: string,
    phoneNumber: Option<string>,
    role: Role,
    assignedPages: Option<seq<string>>,
    createdAt: string)

  datatype RegStatus = Pending | Approved | Rejected

  /** A self-service sign-up request awaiting an administrator's decision. */
  datatype Registration = Registration(
    id: string,
    username: string,
    phoneNumber: string,
    password: string,
    status: RegStatus,
    createdAt: string)

  /** A page of the `adminPages` collection. */
  datatype SimplePage = SimplePage(
    id: string,
    title: string,
    description: string,
    embedUrl: string,
    createdAt: string)

  /** The legacy layout editor's element kinds. */
  datatype LegacyKind = LegacyButton | LegacyCard | LegacyShape | LegacyText

  datatype LegacyElement = LegacyElement(
    id: string,
    kind: LegacyKind,
    content: string,
    x: int,
    y: int,
    width: int,
    height: int,
    backgroundColor: string,
    textColor: string,
    link: Option<string>,
    borderRadius: int,
    fontSize: int)

  /** One value of the `pageLayouts` map; `elements` may be missing. */
  datatype Layout = Layout(elements: Option<seq<LegacyElement>>, lastModified: string)

  /**
   * One audit entry. The payload is kept as its scalar fields by name
   * (ids, names, actions); `user` is the session's username, absent when
   * nobody is logged in.
   */
  datatype LogEntry = LogEntry(
    timestamp: string,
    action: string,
    data: map<string, string>,
    user: Option<string>,
    role: string)
}
