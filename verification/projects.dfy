/** The project mapper. Projects become group resources with a single
    "member" entitlement; grants come from the owner and security-champion
    lists of the one project the grant request names, keyed by email. */
module Projects {
  import opened Wrappers
  import opened Models
  import opened Seqs
  import opened Text
  import opened Client
  import opened Resources

  function ProjectResource(p: Project): (r: Resource)
    ensures r.id == ResourceId(ProjectType, p.id)
    ensures r.displayName == p.name && r.description == p.description
    ensures r.details == GroupTrait
  {
    Resource(ResourceId(ProjectType, p.id), p.name, p.description, GroupTrait)
  }

  /** List emits one group per project of the page, in order, unfiltered. */
  function List(token: string, fetch: Fetch<Project>): (r: Result<Page<Resource>, ConnectorError>)
    ensures var resp := fetch(CursorFromToken(token));
            && (r.Failure? <==> resp.Failure?)
            && (r.Failure? ==> r.error == Wrapped("list projects", resp.error))
            && (r.Success? ==>
                  && |r.value.items| == |resp.value.nodes|
                  && (forall i :: 0 <= i < |resp.value.nodes| ==>
                        r.value.items[i] == ProjectResource(resp.value.nodes[i]))
                  && r.value.nextPageToken == NextPageToken(resp.value.pageInfo))
  {
    match fetch(CursorFromToken(token))
    case Failure(e) => Failure(Wrapped("list projects", e))
    case Success(resp) =>
      var nodes := resp.nodes;
      Success(Page(seq(|nodes|, i requires 0 <= i < |nodes| => ProjectResource(nodes[i])), NextPageToken(resp.pageInfo)))
  }

  /** Through the client: List pages projects with the request ListProjects
      makes for the token's cursor, and a request failure arrives wrapped
      twice, by the client operation and by the mapper. */
  lemma ListThroughClient(token: string, server: Server<ProjectConnection>, jitter: Transport.Jitter)
    ensures var r := List(token, ProjectsFetch(server, jitter));
            var run := Transport.GraphQLRequest(server(CursorVariables("cursor", CursorFromToken(token))), jitter);
            && (r.Success? <==> run.result.Success?)
            && (r.Failure? ==> r.error == Wrapped("list projects", OperationFailed("list projects", run.result.error)))
            && (r.Success? ==>
                  && |r.value.items| == |run.result.value.nodes|
                  && (forall i :: 0 <= i < |run.result.value.nodes| ==>
                        r.value.items[i] == ProjectResource(run.result.value.nodes[i]))
                  && r.value.nextPageToken == NextPageToken(run.result.value.pageInfo))
  {
  }

  /** Exactly one "member" entitlement, grantable to users. */
  function Entitlements(res: Resource): (r: Result<Page<Entitlement>, ConnectorError>)
    ensures r.Success? && |r.value.items| == 1 && r.value.nextPageToken == ""
    ensures var e := r.value.items[0];
            e.resource == res.id && e.slug == Member && e.grantableTo == [UserType]
    ensures var e := r.value.items[0];
            e.displayName == res.displayName + " Project Member" && e.description == "Membership in " + res.displayName + " project"
  {
    Success(Page([Entitlement(
      res.id, Member, [UserType],
      res.displayName + " Project Member",
      "Membership in " + res.displayName + " project")], ""))
  }

  function OwnerEmails(owners: seq<ProjectOwner>): (emails: seq<string>)
    ensures |emails| == |owners|
    ensures forall i :: 0 <= i < |owners| ==> emails[i] == owners[i].email
  {
    seq(|owners|, i requires 0 <= i < |owners| => owners[i].email)
  }

  function ChampionEmails(champions: seq<SecurityChampion>): (emails: seq<string>)
    ensures |emails| == |champions|
    ensures forall i :: 0 <= i < |champions| ==> emails[i] == champions[i].email
  {
    seq(|champions|, i requires 0 <= i < |champions| => champions[i].email)
  }

  /** One "member" grant on the project per non-empty email, in order, with
      the email as the user principal. */
  function EmailGrants(project: ResourceId, emails: seq<string>): (gs: seq<Grant>)
    ensures |gs| == |Filter(emails, NonEmpty)|
    ensures forall i :: 0 <= i < |gs| ==>
      gs[i] == Grant(project, Member, ResourceId(UserType, Filter(emails, NonEmpty)[i]))
  {
    if |emails| == 0 then []
    else if emails[0] == "" then EmailGrants(project, emails[1..])
    else [Grant(project, Member, ResourceId(UserType, emails[0]))] + EmailGrants(project, emails[1..])
  }

  /** The grants of one project: owners first, then champions. */
  function ProjectGrants(project: ResourceId, p: Project): (gs: seq<Grant>)
    ensures var owners := Filter(OwnerEmails(p.projectOwners), NonEmpty);
            var champions := Filter(ChampionEmails(p.securityChampions), NonEmpty);
            && |gs| == |owners| + |champions|
            && (forall i :: 0 <= i < |owners| ==> gs[i] == Grant(project, Member, ResourceId(UserType, owners[i])))
            && (forall i :: 0 <= i < |champions| ==>
                  gs[|owners| + i] == Grant(project, Member, ResourceId(UserType, champions[i])))
  {
    EmailGrants(project, OwnerEmails(p.projectOwners)) + EmailGrants(project, ChampionEmails(p.securityChampions))
  }

  /** The grant count is the number of owners with an email plus the number
      of champions with an email, and every grant is "member" on the project
      for a user keyed by an email. */
  lemma ProjectGrantsShape(project: ResourceId, p: Project)
    ensures var gs := ProjectGrants(project, p);
            && |gs| == |p.projectOwners| - CountRejected(OwnerEmails(p.projectOwners), NonEmpty)
                     + |p.securityChampions| - CountRejected(ChampionEmails(p.securityChampions), NonEmpty)
            && forall i :: 0 <= i < |gs| ==>
                 && gs[i].entitlementResource == project && gs[i].entitlementSlug == Member
                 && gs[i].principal.resourceType == UserType && gs[i].principal.resource != ""
  {
    FilterLength(OwnerEmails(p.projectOwners), NonEmpty);
    FilterLength(ChampionEmails(p.securityChampions), NonEmpty);
    var owners := EmailGrants(project, OwnerEmails(p.projectOwners));
    var champions := EmailGrants(project, ChampionEmails(p.securityChampions));
    var gs := owners + champions;
    forall i | 0 <= i < |gs|
      ensures gs[i].entitlementResource == project && gs[i].entitlementSlug == Member
      ensures gs[i].principal.resourceType == UserType && gs[i].principal.resource != ""
    {
      if i < |owners| {
        assert gs[i] == owners[i];
        assert NonEmpty(Filter(OwnerEmails(p.projectOwners), NonEmpty)[i]);
      } else {
        assert gs[i] == champions[i - |owners|];
        assert NonEmpty(Filter(ChampionEmails(p.securityChampions), NonEmpty)[i - |owners|]);
      }
    }
  }

  /** `k` is the position of the first project of `nodes` whose ID is `id`. */
  ghost predicate FirstWithId(nodes: seq<Project>, id: string, k: int) {
    && 0 <= k < |nodes| && nodes[k].id == id
    && forall j :: 0 <= j < k ==> nodes[j].id != id
  }

  /** Index of the first project of the page with the given ID. */
  function FirstMatch(nodes: seq<Project>, id: string): (k: Option<nat>)
    ensures k.None? <==> forall j :: 0 <= j < |nodes| ==> nodes[j].id != id
    ensures forall j :: FirstWithId(nodes, id, j) <==> k == Some(j)
  {
    if |nodes| == 0 then None
    else if nodes[0].id == id then Some(0)
    else match FirstMatch(nodes[1..], id)
      case None => None
      case Some(k) => Some(k + 1)
  }

  /** Grants scans the fetched page for the requested project; only the
      first project with that ID contributes. With no match the grants are
      empty, but the next-page token still follows the page, so the caller
      keeps paging until it finds the project. */
  function Grants(res: Resource, token: string, fetch: Fetch<Project>): (r: Result<Page<Grant>, ConnectorError>)
    ensures var resp := fetch(CursorFromToken(token));
            && (r.Failure? <==> resp.Failure?)
            && (r.Failure? ==> r.error == Wrapped("list projects for grants", resp.error))
            && (r.Success? ==> r.value.nextPageToken == NextPageToken(resp.value.pageInfo))
            && (r.Success? && (forall j :: 0 <= j < |resp.value.nodes| ==> resp.value.nodes[j].id != res.id.resource) ==>
                  r.value.items == [])
            && (r.Success? ==> forall k :: FirstWithId(resp.value.nodes, res.id.resource, k) ==>
                  r.value.items == ProjectGrants(res.id, resp.value.nodes[k]))
  {
    match fetch(CursorFromToken(token))
    case Failure(e) => Failure(Wrapped("list projects for grants", e))
    case Success(resp) =>
      var grants := match FirstMatch(resp.nodes, res.id.resource)
        case None => []
        case Some(k) => ProjectGrants(res.id, resp.nodes[k]);
      Success(Page(grants, NextPageToken(resp.pageInfo)))
  }

  /** A project with two owners and one champion, all with emails, yields
      exactly three grants, one per person, owners first. */
  lemma TwoOwnersOneChampion(project: ResourceId, p: Project)
    requires |p.projectOwners| == 2 && |p.securityChampions| == 1
    requires p.projectOwners[0].email != "" && p.projectOwners[1].email != ""
    requires p.securityChampions[0].email != ""
    ensures ProjectGrants(project, p) == [
      Grant(project, Member, ResourceId(UserType, p.projectOwners[0].email)),
      Grant(project, Member, ResourceId(UserType, p.projectOwners[1].email)),
      Grant(project, Member, ResourceId(UserType, p.securityChampions[0].email))]
  {
    var owners := OwnerEmails(p.projectOwners);
    var champions := ChampionEmails(p.securityChampions);
    FilterAll(owners, NonEmpty);
    FilterAll(champions, NonEmpty);
  }
}
