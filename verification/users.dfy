/** The user mapper. Users are keyed by email, because the upstream API
    hands out different IDs for the same person on different endpoints; a
    user without an email is skipped. List caches each user's role and
    project IDs in the resource profile, and Grants reads them back. */
module Users {
  import opened Wrappers
  import opened Models
  import opened Seqs
  import opened Text
  import opened Client
  import opened Resources

  predicate HasEmail(u: User) {
    u.email != ""
  }

  /** The IDs of the assigned projects, in order. */
  function ProjectIds(projects: seq<ProjectRef>): (ids: seq<string>)
    ensures |ids| == |projects|
    ensures forall i :: 0 <= i < |projects| ==> ids[i] == projects[i].id
  {
    seq(|projects|, i requires 0 <= i < |projects| => projects[i].id)
  }

  /** The profile cached on a user resource: `role_id` only for a non-empty
      effective role, `project_ids` only when a project is assigned. */
  function ProfileOf(u: User): (p: Profile)
    ensures p.roleId.Some? <==> u.effectiveRole.id != ""
    ensures p.roleId.Some? ==> p.roleId.value == u.effectiveRole.id
    ensures p.projectIds.Some? <==> |u.effectiveAssignedProjects| > 0
    ensures p.projectIds.Some? ==> p.projectIds.value == ProjectIds(u.effectiveAssignedProjects)
  {
    Profile(
      if u.effectiveRole.id != "" then Some(u.effectiveRole.id) else None,
      if |u.effectiveAssignedProjects| > 0 then Some(ProjectIds(u.effectiveAssignedProjects)) else None)
  }

  /** The email is both the display name and the resource ID. */
  function UserResource(u: User): (r: Resource)
    ensures r.id == ResourceId(UserType, u.email)
    ensures r.displayName == u.email
    ensures r.details == UserTrait(u.email, true, StatusEnabled, Some(ProfileOf(u)))
  {
    Resource(ResourceId(UserType, u.email), u.email, "", UserTrait(u.email, true, StatusEnabled, Some(ProfileOf(u))))
  }

  /** The loop of List: one resource per user with an email, in page order. */
  function UserResources(nodes: seq<User>): (rs: seq<Resource>)
    ensures |rs| == |Filter(nodes, HasEmail)|
    ensures forall i :: 0 <= i < |rs| ==> rs[i] == UserResource(Filter(nodes, HasEmail)[i])
  {
    if |nodes| == 0 then []
    else if HasEmail(nodes[0]) then [UserResource(nodes[0])] + UserResources(nodes[1..])
    else UserResources(nodes[1..])
  }

  function List(token: string, fetch: Fetch<User>): (r: Result<Page<Resource>, ConnectorError>)
    ensures var resp := fetch(CursorFromToken(token));
            && (r.Failure? <==> resp.Failure?)
            && (r.Failure? ==> r.error == Wrapped("list users", resp.error))
            && (r.Success? ==>
                  && |r.value.items| == |Filter(resp.value.nodes, HasEmail)|
                  && (forall i :: 0 <= i < |r.value.items| ==>
                        r.value.items[i] == UserResource(Filter(resp.value.nodes, HasEmail)[i]))
                  && r.value.nextPageToken == NextPageToken(resp.value.pageInfo))
  {
    match fetch(CursorFromToken(token))
    case Failure(e) => Failure(Wrapped("list users", e))
    case Success(resp) => Success(Page(UserResources(resp.nodes), NextPageToken(resp.pageInfo)))
  }

  /** List drops exactly the users without an email: the page shrinks by the
      number of such users, and every emitted resource ID is non-empty. */
  lemma ListDropsExactlyEmailless(token: string, fetch: Fetch<User>)
    ensures var r := List(token, fetch);
            var resp := fetch(CursorFromToken(token));
            r.Success? ==>
              && |r.value.items| + CountRejected(resp.value.nodes, HasEmail) == |resp.value.nodes|
              && forall i :: 0 <= i < |r.value.items| ==> r.value.items[i].id.resource != ""
  {
    var resp := fetch(CursorFromToken(token));
    if resp.Success? {
      FilterLength(resp.value.nodes, HasEmail);
    }
  }

  /** Through the client: List pages users with the request ListUsers makes
      for the token's cursor, and a request failure arrives wrapped twice,
      by the client operation and by the mapper. */
  lemma ListThroughClient(token: string, server: Server<UserConnection>, jitter: Transport.Jitter)
    ensures var r := List(token, UsersFetch(server, jitter));
            var run := Transport.GraphQLRequest(server(UsersVariables(CursorFromToken(token))), jitter);
            && (r.Success? <==> run.result.Success?)
            && (r.Failure? ==> r.error == Wrapped("list users", OperationFailed("list users", run.result.error)))
            && (r.Success? ==>
                  && |r.value.items| == |Filter(run.result.value.nodes, HasEmail)|
                  && (forall i :: 0 <= i < |r.value.items| ==>
                        r.value.items[i] == UserResource(Filter(run.result.value.nodes, HasEmail)[i]))
                  && r.value.nextPageToken == NextPageToken(run.result.value.pageInfo))
  {
  }

  /** The users of a longer page are emitted in order: the mapping of a
      concatenation is the concatenation of the mappings. */
  lemma {:induction false} UserResourcesAppend(a: seq<User>, b: seq<User>)
    ensures UserResources(a + b) == UserResources(a) + UserResources(b)
  {
    if |a| == 0 {
      assert a + b == b;
    } else {
      assert (a + b)[1..] == a[1..] + b;
      UserResourcesAppend(a[1..], b);
    }
  }

  /** Users have no entitlements of their own. */
  function Entitlements(res: Resource): (r: Result<Page<Entitlement>, ConnectorError>)
    ensures r.Success? && r.value.items == [] && r.value.nextPageToken == ""
  {
    Success(EmptyPage())
  }

  /** One "member" project grant per non-empty project ID, in order. */
  function ProjectGrants(principal: ResourceId, ids: seq<string>): (gs: seq<Grant>)
    ensures |gs| == |Filter(ids, NonEmpty)|
    ensures forall i :: 0 <= i < |gs| ==>
      gs[i] == Grant(ResourceId(ProjectType, Filter(ids, NonEmpty)[i]), Member, principal)
  {
    if |ids| == 0 then []
    else if ids[0] == "" then ProjectGrants(principal, ids[1..])
    else [Grant(ResourceId(ProjectType, ids[0]), Member, principal)] + ProjectGrants(principal, ids[1..])
  }

  /** Whether a profile carries a non-empty role ID. */
  predicate HasRole(p: Profile) {
    p.roleId.Some? && p.roleId.value != ""
  }

  /** The project IDs a profile carries, or none. */
  function CachedProjectIds(p: Profile): seq<string> {
    if p.projectIds.Some? then p.projectIds.value else []
  }

  /** The grants a profile yields: the role grant first, when there is one,
      then the project grants. */
  function ProfileGrants(principal: ResourceId, p: Profile): (gs: seq<Grant>)
    ensures var roles := if HasRole(p) then 1 else 0;
            var ids := Filter(CachedProjectIds(p), NonEmpty);
            && |gs| == roles + |ids|
            && (HasRole(p) ==> gs[0] == Grant(ResourceId(RoleType, p.roleId.value), Member, principal))
            && (forall i :: 0 <= i < |ids| ==>
                  gs[roles + i] == Grant(ResourceId(ProjectType, ids[i]), Member, principal))
    ensures forall i :: 0 <= i < |gs| ==> gs[i].principal == principal && gs[i].entitlementSlug == Member
  {
    if HasRole(p) then
      [Grant(ResourceId(RoleType, p.roleId.value), Member, principal)] + ProjectGrants(principal, CachedProjectIds(p))
    else
      ProjectGrants(principal, CachedProjectIds(p))
  }

  /** Grants reads the profile cached by List; a missing profile yields no
      grants rather than an error. The principal is the user resource itself. */
  function Grants(res: Resource): (r: Result<Page<Grant>, ConnectorError>)
    ensures r.Failure? <==> !res.details.UserTrait?
    ensures r.Failure? ==> r.error == MissingUserTrait
    ensures r.Success? ==> r.value.nextPageToken == ""
    ensures r.Success? && res.details.profile.None? ==> r.value.items == []
    ensures r.Success? && res.details.profile.Some? ==>
      r.value.items == ProfileGrants(res.id, res.details.profile.value)
  {
    if !res.details.UserTrait? then Failure(MissingUserTrait)
    else match res.details.profile
      case None => Success(EmptyPage())
      case Some(p) => Success(Page(ProfileGrants(res.id, p), ""))
  }

  /** Round trip through the cached profile: the resource List emits for a
      user yields one role grant if and only if the user has a non-empty
      effective role, first, then one project grant per non-empty assigned
      project ID, all with the user's email as principal. */
  lemma ListThenGrants(u: User)
    requires HasEmail(u)
    ensures var r := Grants(UserResource(u));
            var roles := if u.effectiveRole.id != "" then 1 else 0;
            var ids := Filter(ProjectIds(u.effectiveAssignedProjects), NonEmpty);
            && r.Success?
            && |r.value.items| == roles + |ids|
            && (u.effectiveRole.id != "" ==>
                  r.value.items[0] == Grant(ResourceId(RoleType, u.effectiveRole.id), Member, ResourceId(UserType, u.email)))
            && (forall i :: 0 <= i < |ids| ==>
                  r.value.items[roles + i] == Grant(ResourceId(ProjectType, ids[i]), Member, ResourceId(UserType, u.email)))
  {
    var p := ProfileOf(u);
    var res := UserResource(u);
    var principal := ResourceId(UserType, u.email);
    assert res.id == principal;
    assert res.details.profile == Some(p);
    var gs := ProfileGrants(principal, p);
    assert Grants(res) == Success(Page(gs, ""));
    assert HasRole(p) <==> u.effectiveRole.id != "";
    assert CachedProjectIds(p) == ProjectIds(u.effectiveAssignedProjects);
    var roles := if HasRole(p) then 1 else 0;
    var ids := Filter(CachedProjectIds(p), NonEmpty);
    assert Grants(UserResource(u)).value.items == gs;
    forall i | 0 <= i < |Filter(ProjectIds(u.effectiveAssignedProjects), NonEmpty)|
      ensures Grants(UserResource(u)).value.items[(if u.effectiveRole.id != "" then 1 else 0) + i]
        == Grant(ResourceId(ProjectType, Filter(ProjectIds(u.effectiveAssignedProjects), NonEmpty)[i]), Member, ResourceId(UserType, u.email))
    {
      assert gs[roles + i] == Grant(ResourceId(ProjectType, ids[i]), Member, principal);
    }
  }

  /** The users endpoint is queried for id, name and email only, so role and
      projects come back empty; the cached profile is then empty and Grants
      degrades to no grants instead of failing. */
  lemma NoRelationsNoGrants(u: User)
    requires u.effectiveRole.id == "" && u.effectiveAssignedProjects == []
    ensures Grants(UserResource(u)) == Success(Page([], ""))
  {
  }

  /** Every grant derived from a listed user names a principal with a
      non-empty email that belongs to a user of the page. */
  lemma ListedGrantsNameListedUsers(nodes: seq<User>, k: nat, g: Grant)
    requires k < |UserResources(nodes)|
    requires var r := Grants(UserResources(nodes)[k]); r.Success? && g in r.value.items
    ensures g.principal.resource != ""
    ensures exists u :: u in nodes && HasEmail(u) && g.principal == ResourceId(UserType, u.email)
  {
    var u := Filter(nodes, HasEmail)[k];
    FilterMembers(nodes, HasEmail, u);
    var res := UserResource(u);
    assert res.details.profile == Some(ProfileOf(u));
    assert Grants(res).value.items == ProfileGrants(res.id, ProfileOf(u));
  }
}
