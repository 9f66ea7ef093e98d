/** The upstream record shapes returned by the Wiz GraphQL API.

    Every paginated collection is one generic Connection: an ordered list of
    nodes plus exactly one PageInfo. The Go code in the connector sometimes
    iterates `resp.Edges` and reads `edge.Node` or `user.Role`, which the Go
    record definitions do not declare; this model reads `edge.Node` as the
    node itself and `user.Role` as the user's effective role. */
module Models {
  import opened Wrappers

  /** Relay cursor pagination: whether another page exists, and where it starts. */
  datatype PageInfo = PageInfo(hasNextPage: bool, endCursor: string)

  /** The page information of a response that is known to be complete. */
  const ZeroPageInfo: PageInfo := PageInfo(false, "")

  /** An ordered page of records and its pagination block. */
  datatype Connection<T> = Connection(nodes: seq<T>, pageInfo: PageInfo)

  /** A user's role is a plain value; "no role" is an empty ID, never null. */
  datatype UserRoleRef = UserRoleRef(id: string, name: string)

  datatype ProjectRef = ProjectRef(id: string, name: string)

  datatype User = User(
    id: string,
    email: string,
    name: string,
    effectiveRole: UserRoleRef,
    effectiveAssignedProjects: seq<ProjectRef>)

  type UserConnection = Connection<User>

  datatype UserRole = UserRole(
    id: string,
    name: string,
    description: string,
    scopes: seq<string>,
    builtin: bool,
    isProjectScoped: bool)

  type UserRoleConnection = Connection<UserRole>

  /** Owners and security champions are distinct record types with the same
      shape; either email may be empty. */
  datatype ProjectOwner = ProjectOwner(id: string, email: string)

  datatype SecurityChampion = SecurityChampion(id: string, email: string)

  datatype Project = Project(
    id: string,
    name: string,
    description: string,
    projectOwners: seq<ProjectOwner>,
    securityChampions: seq<SecurityChampion>)

  type ProjectConnection = Connection<Project>

  datatype SourceRule = SourceRule(name: string)

  /** The cloud platform is the only field that may be null. */
  datatype EntitySnapshot = EntitySnapshot(
    id: string,
    externalId: string,
    cloudPlatform: Option<string>,
    entityType: string,
    name: string)

  /** An opaque point in time, passed through unchanged. */
  datatype Timestamp = Timestamp(unixNanos: int)

  datatype Issue = Issue(
    id: string,
    issueType: string,
    severity: string,
    status: string,
    createdAt: Timestamp,
    sourceRule: SourceRule,
    entitySnapshot: EntitySnapshot)

  type IssueConnection = Connection<Issue>

  /** One element of a GraphQL error path: a field name or a list index. */
  datatype PathElement = FieldName(field: string) | ListIndex(index: int)

  datatype GraphQLError = GraphQLError(message: string, path: seq<PathElement>)

  /** The response envelope: the decoded data plus a possibly empty error list. */
  datatype GraphQLResponse<T> = GraphQLResponse(data: T, errors: seq<GraphQLError>)
}
