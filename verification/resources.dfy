/** The connector SDK's records, reduced to plain data, and the page-token
    protocol every mapper shares: an empty token is the first page, and the
    token handed back is the end cursor only while another page exists. */
module Resources {
  import opened Wrappers
  import opened Models
  import opened Client

  /** Resource type identifiers. */
  const UserType: string := "user"
  const RoleType: string := "role"
  const ProjectType: string := "project"
  const InsightType: string := "security-insight"

  /** The only entitlement slug the connector uses. */
  const Member: string := "member"

  datatype ResourceId = ResourceId(resourceType: string, resource: string)

  datatype UserStatus = StatusEnabled

  /** The user profile written by the user mapper's List and read back by its
      Grants: each field is present or absent. */
  datatype Profile = Profile(roleId: Option<string>, projectIds: Option<seq<string>>)

  datatype Trait =
    | UserTrait(email: string, primaryEmail: bool, status: UserStatus, profile: Option<Profile>)
    | RoleTrait
    | GroupTrait
    | SecurityInsightTrait(
        issue: string, severity: string, targetExternalId: string, appHint: string, observedAt: Timestamp)

  datatype Resource = Resource(id: ResourceId, displayName: string, description: string, details: Trait)

  datatype Entitlement = Entitlement(
    resource: ResourceId,
    slug: string,
    grantableTo: seq<string>,
    displayName: string,
    description: string)

  /** "principal holds entitlement `slug` on resource `entitlementResource`". */
  datatype Grant = Grant(entitlementResource: ResourceId, entitlementSlug: string, principal: ResourceId)

  /** One page of mapper output and the token for the next call. */
  datatype Page<T> = Page(items: seq<T>, nextPageToken: string)

  datatype ConnectorError =
    | Wrapped(context: string, cause: ClientError)
    | MissingUserTrait

  /** The empty, final page returned by operations that produce nothing. */
  function EmptyPage<T>(): Page<T> {
    Page([], "")
  }

  /** An empty page token means "no cursor", i.e. the first page. */
  function CursorFromToken(token: string): (c: Option<string>)
    ensures c.None? <==> token == ""
    ensures c.Some? ==> c.value == token
  {
    if token == "" then None else Some(token)
  }

  /** The next-page token: the end cursor while another page exists, empty otherwise. */
  function NextPageToken(info: PageInfo): (t: string)
    ensures info.hasNextPage ==> t == info.endCursor
    ensures !info.hasNextPage ==> t == ""
  {
    if info.hasNextPage then info.endCursor else ""
  }

  /** A non-empty next-page token carries the page's end cursor, so the
      call that follows resumes there. An empty token reports the last page
      and no further call is made; an end cursor that is empty although
      another page exists therefore ends the collection early. */
  lemma NextCallResumesAtEndCursor(info: PageInfo)
    ensures CursorFromToken(NextPageToken(info)) ==
      if info.hasNextPage && info.endCursor != "" then Some(info.endCursor) else None
  {
  }

  /** The variables the follow-up request sends carry the end cursor exactly
      when another page exists and the cursor is non-empty. */
  lemma FollowUpRequestCarriesCursor(info: PageInfo)
    ensures var v := CursorVariables("cursor", CursorFromToken(NextPageToken(info)));
            && ("cursor" in v <==> info.hasNextPage && info.endCursor != "")
            && ("cursor" in v ==> v["cursor"] == StringValue(info.endCursor))
  {
  }
}
