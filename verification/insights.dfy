/** The security-insight mapper. Each open issue becomes an informational
    resource keyed by the issue ID and the affected resource's external ID,
    annotated with a cloud-provider hint guessed from that external ID.
    Insights have no entitlements and no grants. */
module Insights {
  import opened Wrappers
  import opened Models
  import opened Seqs
  import opened Text
  import opened Client
  import opened Resources

  const AwsPrefix: string := "arn:aws:"
  const AzurePrefix: string := "/subscriptions/"
  const GcpPrefix: string := "//"
  const GcpProjectPath: string := "projects/"

  /** detectAppHint: the first matching rule wins. */
  function DetectAppHint(externalId: string): (hint: string)
    ensures hint in {"aws", "azure", "gcp", "unknown"}
    ensures hint == "aws" <==> AwsPrefix <= externalId
    ensures hint == "azure" <==> !(AwsPrefix <= externalId) && AzurePrefix <= externalId
    ensures hint == "gcp" <==>
      && !(AwsPrefix <= externalId) && !(AzurePrefix <= externalId)
      && (GcpPrefix <= externalId || Occurs(externalId, GcpProjectPath))
    ensures hint == "unknown" <==>
      && !(AwsPrefix <= externalId) && !(AzurePrefix <= externalId)
      && !(GcpPrefix <= externalId) && !Occurs(externalId, GcpProjectPath)
  {
    ProjectPathContainsSlash(externalId);
    if HasPrefix(externalId, AwsPrefix) then "aws"
    else if HasPrefix(externalId, AzurePrefix) then "azure"
    else if HasPrefix(externalId, GcpPrefix) then "gcp"
    else if Contains(externalId, GcpProjectPath) && Contains(externalId, "/") then "gcp"
    else "unknown"
  }

  /** The fourth rule also asks for a "/", which "projects/" already
      contains, so that rule is just "contains projects/". */
  lemma ProjectPathContainsSlash(s: string)
    ensures Contains(s, GcpProjectPath) && Contains(s, "/") <==> Occurs(s, GcpProjectPath)
  {
    ContainsIsOccurs(s, GcpProjectPath);
    ContainsIsOccurs(s, "/");
    if Occurs(s, GcpProjectPath) {
      assert OccursAt(GcpProjectPath, "/", 8);
      OccursTransitive(s, GcpProjectPath, "/");
    }
  }

  /** No occurrence of a pattern is possible without its first character. */
  lemma AbsentFirstChar(s: string, sub: string)
    requires |sub| > 0 && forall k :: 0 <= k < |s| ==> s[k] != sub[0]
    ensures !Occurs(s, sub)
  {
    forall i | 0 <= i <= |s| - |sub|
      ensures !OccursAt(s, sub, i)
    {
      assert s[i..i + |sub|][0] == s[i];
    }
  }

  /** Worked examples of the classifier, one per rule. */
  lemma AwsExample()
    ensures DetectAppHint("arn:aws:s3:::bucket") == "aws"
  {
    var id := "arn:aws:s3:::bucket";
    assert id[..|AwsPrefix|] == AwsPrefix;
  }

  lemma AzureExample()
    ensures DetectAppHint("/subscriptions/abc/resourceGroups/x") == "azure"
  {
    var id := "/subscriptions/abc/resourceGroups/x";
    assert id[0] != AwsPrefix[0];
    assert id[..|AzurePrefix|] == AzurePrefix;
  }

  lemma GcpExample()
    ensures DetectAppHint("//compute.googleapis.com" + "/projects/p/zones/z/instances/i") == "gcp"
  {
    var host := "//compute.googleapis.com";
    var id := host + "/projects/p/zones/z/instances/i";
    assert id[..2] == host[..2];
    assert id[0] != AwsPrefix[0];
    assert id[1] != AzurePrefix[1];
    assert id[..2] == GcpPrefix;
  }

  /** The earlier rule wins: an Azure path that mentions projects is Azure. */
  lemma AzureBeforeProjectPath()
    ensures DetectAppHint("/subscriptions/abc/projects/p") == "azure"
  {
    var id := "/subscriptions/abc/projects/p";
    assert id[0] != AwsPrefix[0];
    assert id[..|AzurePrefix|] == AzurePrefix;
  }

  lemma ProjectPathExample()
    ensures DetectAppHint("org/projects/p") == "gcp"
  {
    var id := "org/projects/p";
    assert id[0] != AwsPrefix[0] && id[0] != AzurePrefix[0] && id[0] != GcpPrefix[0];
    assert id[4..13] == GcpProjectPath;
    assert OccursAt(id, GcpProjectPath, 4);
  }

  lemma UnknownExample()
    ensures DetectAppHint("unrecognized-string") == "unknown"
  {
    var id := "unrecognized-string";
    assert id[0] != AwsPrefix[0] && id[0] != AzurePrefix[0] && id[0] != GcpPrefix[0];
    assert forall k :: 0 <= k < |id| ==> id[k] != 'p';
    AbsentFirstChar(id, GcpProjectPath);
  }

  /** Issues without an issue ID or an external ID are skipped. */
  predicate Identifiable(issue: Issue) {
    issue.id != "" && issue.entitySnapshot.externalId != ""
  }

  /** The composite resource ID "issueID:externalID". */
  function InsightId(issueId: string, externalId: string): string {
    issueId + ":" + externalId
  }

  /** The composite ID determines both parts as long as the issue ID has no
      colon; external IDs may contain colons freely. */
  lemma InsightIdInjective(a1: string, b1: string, a2: string, b2: string)
    requires ':' !in a1 && ':' !in a2
    requires InsightId(a1, b1) == InsightId(a2, b2)
    ensures a1 == a2 && b1 == b2
  {
    var s := InsightId(a1, b1);
    assert s[|a1|] == ':' && s[|a2|] == ':';
    assert |a1| == |a2|;
    assert a1 == s[..|a1|] == a2;
    assert b1 == s[|a1| + 1..] == b2;
  }

  /** With a colon in the issue ID, two different issues can share an ID. */
  lemma InsightIdCollision()
    ensures InsightId("a:b", "c") == InsightId("a", "b:c")
  {
  }

  /** The platform named in the description: the snapshot's, or "Unknown". */
  function PlatformText(snapshot: EntitySnapshot): (t: string)
    ensures snapshot.cloudPlatform.Some? ==> t == snapshot.cloudPlatform.value
    ensures snapshot.cloudPlatform.None? ==> t == "Unknown"
  {
    match snapshot.cloudPlatform
    case Some(platform) => platform
    case None => "Unknown"
  }

  /** The insight text "[severity] type: rule". */
  function InsightText(issue: Issue): (t: string)
    ensures HasPrefix(t, "[" + issue.severity + "] ")
    ensures |t| == |issue.severity| + |issue.issueType| + |issue.sourceRule.name| + 5
    ensures t[|t| - |issue.sourceRule.name| - 2..] == ": " + issue.sourceRule.name
    ensures t[|issue.severity| + 3..|t| - |issue.sourceRule.name| - 2] == issue.issueType
  {
    "[" + issue.severity + "] " + issue.issueType + ": " + issue.sourceRule.name
  }

  function InsightResource(issue: Issue): (r: Resource)
    ensures r.id == ResourceId(InsightType, InsightId(issue.id, issue.entitySnapshot.externalId))
    ensures r.displayName == issue.sourceRule.name + " - " + issue.entitySnapshot.name
    ensures r.details == SecurityInsightTrait(
      InsightText(issue), issue.severity, issue.entitySnapshot.externalId,
      DetectAppHint(issue.entitySnapshot.externalId), issue.createdAt)
  {
    var snapshot := issue.entitySnapshot;
    Resource(
      ResourceId(InsightType, InsightId(issue.id, snapshot.externalId)),
      issue.sourceRule.name + " - " + snapshot.name,
      "Wiz Security Issue: " + issue.sourceRule.name + " (Status: " + issue.status + ", Severity: "
        + issue.severity + ") affecting " + PlatformText(snapshot) + " resource " + snapshot.name,
      SecurityInsightTrait(InsightText(issue), issue.severity, snapshot.externalId,
        DetectAppHint(snapshot.externalId), issue.createdAt))
  }

  /** The loop of List: one resource per identifiable issue, in page order. */
  function InsightResources(nodes: seq<Issue>): (rs: seq<Resource>)
    ensures |rs| == |Filter(nodes, Identifiable)|
    ensures forall i :: 0 <= i < |rs| ==> rs[i] == InsightResource(Filter(nodes, Identifiable)[i])
  {
    if |nodes| == 0 then []
    else if Identifiable(nodes[0]) then [InsightResource(nodes[0])] + InsightResources(nodes[1..])
    else InsightResources(nodes[1..])
  }

  function List(token: string, fetch: Fetch<Issue>): (r: Result<Page<Resource>, ConnectorError>)
    ensures var resp := fetch(CursorFromToken(token));
            && (r.Failure? <==> resp.Failure?)
            && (r.Failure? ==> r.error == Wrapped("list issues", resp.error))
            && (r.Success? ==>
                  && |r.value.items| == |Filter(resp.value.nodes, Identifiable)|
                  && |r.value.items| + CountRejected(resp.value.nodes, Identifiable) == |resp.value.nodes|
                  && (forall i :: 0 <= i < |r.value.items| ==>
                        r.value.items[i] == InsightResource(Filter(resp.value.nodes, Identifiable)[i]))
                  && r.value.nextPageToken == NextPageToken(resp.value.pageInfo))
  {
    match fetch(CursorFromToken(token))
    case Failure(e) => Failure(Wrapped("list issues", e))
    case Success(resp) =>
      FilterLength(resp.nodes, Identifiable);
      Success(Page(InsightResources(resp.nodes), NextPageToken(resp.pageInfo)))
  }

  /** Through the client: List pages issues with the request ListIssues
      makes for the token's cursor, and a request failure arrives wrapped
      twice, by the client operation and by the mapper. */
  lemma ListThroughClient(token: string, server: Server<IssueConnection>, jitter: Transport.Jitter)
    ensures var r := List(token, IssuesFetch(server, jitter));
            var run := Transport.GraphQLRequest(server(CursorVariables("cursor", CursorFromToken(token))), jitter);
            && (r.Success? <==> run.result.Success?)
            && (r.Failure? ==> r.error == Wrapped("list issues", OperationFailed("list issues", run.result.error)))
            && (r.Success? ==>
                  && |r.value.items| == |Filter(run.result.value.nodes, Identifiable)|
                  && (forall i :: 0 <= i < |r.value.items| ==>
                        r.value.items[i] == InsightResource(Filter(run.result.value.nodes, Identifiable)[i]))
                  && r.value.nextPageToken == NextPageToken(run.result.value.pageInfo))
  {
  }

  /** Distinct identifiable issues of one page whose IDs hold no colon get
      distinct resource IDs. */
  lemma ListedIdsDistinct(nodes: seq<Issue>, i: nat, j: nat)
    requires var kept := Filter(nodes, Identifiable);
             && i < |kept| && j < |kept|
             && ':' !in kept[i].id && ':' !in kept[j].id
             && (kept[i].id != kept[j].id || kept[i].entitySnapshot.externalId != kept[j].entitySnapshot.externalId)
    ensures InsightResources(nodes)[i].id != InsightResources(nodes)[j].id
  {
    var kept := Filter(nodes, Identifiable);
    if InsightResources(nodes)[i].id == InsightResources(nodes)[j].id {
      InsightIdInjective(kept[i].id, kept[i].entitySnapshot.externalId, kept[j].id, kept[j].entitySnapshot.externalId);
    }
  }

  /** Insights are informational: no entitlements. */
  function Entitlements(res: Resource): (r: Result<Page<Entitlement>, ConnectorError>)
    ensures r.Success? && r.value.items == [] && r.value.nextPageToken == ""
  {
    Success(EmptyPage())
  }

  /** Insights are informational: no grants. */
  function Grants(res: Resource, token: string): (r: Result<Page<Grant>, ConnectorError>)
    ensures r.Success? && r.value.items == [] && r.value.nextPageToken == ""
  {
    Success(EmptyPage())
  }
}
