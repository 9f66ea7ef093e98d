/** The Wiz API client: the constructor's argument guard, the GraphQL
    variables each list operation sends, and how each operation turns the
    outcome of `graphQLRequest` into a connection or a wrapped error. The
    remote server is an abstract function from request variables to the
    transcript of attempt outcomes it produces. */
module Client {
  import opened Wrappers
  import opened Models
  import opened Transport

  /** What a constructed client keeps; the OAuth2 HTTP client is left out. */
  datatype ClientHandle = ClientHandle(apiURL: string)

  datatype ClientError =
    | MissingAuthParameters
    | OperationFailed(operation: string, cause: RequestError)

  /** NewClient refuses to build a client unless all four parameters are set. */
  function NewClient(apiURL: string, clientID: string, clientSecret: string, authEndpoint: string)
    : (r: Result<ClientHandle, ClientError>)
    ensures r.Failure? <==> apiURL == "" || clientID == "" || clientSecret == "" || authEndpoint == ""
    ensures r.Failure? ==> r.error == MissingAuthParameters
    ensures r.Success? ==> r.value.apiURL == apiURL
  {
    if apiURL == "" || clientID == "" || clientSecret == "" || authEndpoint == "" then
      Failure(MissingAuthParameters)
    else
      Success(ClientHandle(apiURL))
  }

  /** The page size ListUsers asks for. */
  const PageSize: int := 100

  datatype VarValue = IntValue(n: int) | StringValue(s: string) | EmptyObject

  type Variables = map<string, VarValue>

  /** The API's answer, attempt by attempt, to a request with these variables. */
  type Server<T> = Variables -> Transcript<T>

  /** The cursor is sent under `key` only when it is present and non-empty. */
  function CursorVariables(key: string, cursor: Option<string>): (v: Variables)
    ensures key in v <==> cursor.Some? && cursor.value != ""
    ensures key in v ==> v[key] == StringValue(cursor.value)
    ensures v.Keys <= {key}
  {
    if cursor.Some? && cursor.value != "" then map[key := StringValue(cursor.value)] else map[]
  }

  /** ListUsers always sends `first = 100`, and `after` only for a real cursor. */
  function UsersVariables(cursor: Option<string>): (v: Variables)
    ensures "first" in v && v["first"] == IntValue(PageSize)
    ensures "after" in v <==> cursor.Some? && cursor.value != ""
    ensures "after" in v ==> v["after"] == StringValue(cursor.value)
    ensures v.Keys <= {"first", "after"}
  {
    CursorVariables("after", cursor)["first" := IntValue(PageSize)]
  }

  /** ListUserRoles sends an empty filter and never a cursor. */
  const UserRolesVariables: Variables := map["filterBy" := EmptyObject]

  /** One GraphQL operation: the request's result, with a failure wrapped in
      the name of the operation. */
  function Call<T>(operation: string, server: Server<T>, variables: Variables, jitter: Jitter)
    : (r: Result<T, ClientError>)
    ensures var run := GraphQLRequest(server(variables), jitter);
            && (r.Success? <==> run.result.Success?)
            && (r.Success? ==> r.value == run.result.value)
            && (r.Failure? ==> r.error == OperationFailed(operation, run.result.error))
  {
    match GraphQLRequest(server(variables), jitter).result
    case Success(data) => Success(data)
    case Failure(e) => Failure(OperationFailed(operation, e))
  }

  function ListUsers(cursor: Option<string>, server: Server<UserConnection>, jitter: Jitter)
    : (r: Result<UserConnection, ClientError>)
    ensures var run := GraphQLRequest(server(UsersVariables(cursor)), jitter);
            && (r.Success? <==> run.result.Success?)
            && (r.Success? ==> r.value == run.result.value)
            && (r.Failure? ==> r.error == OperationFailed("list users", run.result.error))
  {
    Call("list users", server, UsersVariables(cursor), jitter)
  }

  function ListProjects(cursor: Option<string>, server: Server<ProjectConnection>, jitter: Jitter)
    : (r: Result<ProjectConnection, ClientError>)
    ensures var run := GraphQLRequest(server(CursorVariables("cursor", cursor)), jitter);
            && (r.Success? <==> run.result.Success?)
            && (r.Success? ==> r.value == run.result.value)
            && (r.Failure? ==> r.error == OperationFailed("list projects", run.result.error))
  {
    Call("list projects", server, CursorVariables("cursor", cursor), jitter)
  }

  function ListIssues(cursor: Option<string>, server: Server<IssueConnection>, jitter: Jitter)
    : (r: Result<IssueConnection, ClientError>)
    ensures var run := GraphQLRequest(server(CursorVariables("cursor", cursor)), jitter);
            && (r.Success? <==> run.result.Success?)
            && (r.Success? ==> r.value == run.result.value)
            && (r.Failure? ==> r.error == OperationFailed("list issues", run.result.error))
  {
    Call("list issues", server, CursorVariables("cursor", cursor), jitter)
  }

  /** ListUserRoles receives a flat array of roles and normalises it into a
      connection: one node per role, in array order, with the zero page
      information, so the collection is always a single complete page. The
      cursor argument is ignored. */
  function ListUserRoles(cursor: Option<string>, server: Server<seq<UserRole>>, jitter: Jitter)
    : (r: Result<UserRoleConnection, ClientError>)
    ensures var flat := Call("list user roles", server, UserRolesVariables, jitter);
            && (r.Success? <==> flat.Success?)
            && (r.Failure? ==> r.error == flat.error)
            && (r.Success? ==>
                  && |r.value.nodes| == |flat.value|
                  && (forall i :: 0 <= i < |flat.value| ==> r.value.nodes[i] == flat.value[i])
                  && r.value.pageInfo == ZeroPageInfo)
  {
    match Call("list user roles", server, UserRolesVariables, jitter)
    case Success(roles) => Success(Connection(roles, ZeroPageInfo))
    case Failure(e) => Failure(e)
  }

  /** The list operations as the connector sees them: a cursor in, one page
      (or an error) out. */
  type Fetch<T> = Option<string> -> Result<Connection<T>, ClientError>

  function UsersFetch(server: Server<UserConnection>, jitter: Jitter): Fetch<User> {
    cursor => ListUsers(cursor, server, jitter)
  }

  function ProjectsFetch(server: Server<ProjectConnection>, jitter: Jitter): Fetch<Project> {
    cursor => ListProjects(cursor, server, jitter)
  }

  function IssuesFetch(server: Server<IssueConnection>, jitter: Jitter): Fetch<Issue> {
    cursor => ListIssues(cursor, server, jitter)
  }

  function UserRolesFetch(server: Server<seq<UserRole>>, jitter: Jitter): Fetch<UserRole> {
    cursor => ListUserRoles(cursor, server, jitter)
  }
}
