# baton-wiz-win: a Dafny model of the extraction pipeline

baton-wiz-win is a ConductorOne connector. It reads users, roles, projects
and security issues from the Wiz GraphQL API and turns them into resources,
entitlements and grants. This project models the core of that connector:

- the Wiz client: the argument guard of `NewClient`, the retry/backoff loop
  of `graphQLRequest`, `calculateBackoff`, the GraphQL variables each list
  operation sends, and the flat-array-to-connection normalisation of
  `ListUserRoles`;
- the four resource mappers (users, roles, projects, security insights):
  `List`, `Entitlements` and `Grants`, the page-token protocol they share,
  and `detectAppHint`.

Everything is pure functions over immutable datatypes. The network is an
abstract *transcript*: for each attempt number, the outcome that attempt
sees. The random jitter is an abstract sequence of samples. The remote API
is a function from request variables to a transcript. A mapper receives the
client's list operation as a `Fetch<T>` function from cursor to page.

Modules, one per file:

| file | module | models |
|---|---|---|
| wrappers.dfy | Wrappers | `Option`, `Result` |
| models.dfy | Models | `pkg/wiz/models.go` |
| text.dfy | Text | `strings.HasPrefix`, `strings.Contains` |
| seqs.dfy | Seqs | order-preserving filtering (the mappers' `continue`) |
| backoff.dfy | Backoff | `calculateBackoff` |
| transport.dfy | Transport | `graphQLRequest` |
| client.dfy | Client | `NewClient` and the four list operations |
| resources.dfy | Resources | SDK records; page token to cursor and back |
| users.dfy, roles.dfy, projects.dfy, insights.dfy | Users, Roles, Projects, Insights | the mappers |

Representation choices:

- Durations are integer nanoseconds, as Go's `time.Duration` is. The draw
  `2*rand.Float64() - 1` in [-1, 1) is a `JitterSample` in
  [-1_000_000, 1_000_000), read as millionths.
- The jittered delay is computed exactly and truncated to whole nanoseconds.
- Every Go connection type is a `Connection<T>(nodes, pageInfo)`.
- `roles.go` and `projects.go` read `resp.Edges`, `edge.Node` and
  `user.Role`. Those fields do not exist in `models.go`, where every
  connection has `Nodes` and a user has `EffectiveRole`. The model reads
  `Edges` as the nodes and `Role` as the effective role.

Points of the retry loop worth knowing:

- `maxRetries = 5` gives up to six attempts in all. Six consecutive 429
  responses end in the rate-limit error.
- The jitter is applied after the 32 s cap, so a capped delay can exceed
  32 s by up to a tenth (35.2 s). A sleep only follows attempts 0 to 4, so
  no delay that is actually slept exceeds 17.6 s.
- The response body is read before the status is inspected. A 429 whose body
  cannot be read is fatal and is not retried.

## Model

| member | source | states |
|---|---|---|
| Backoff.CappedBackoff | pkg/wiz/client.go:141-147 | the pre-jitter delay is at most maxDelay and at most baseDelay·2^attempt, and equals one of the two |
| Backoff.CappedBackoffDoubles | pkg/wiz/client.go:141-147 | each further attempt doubles the pre-jitter delay until it is clamped to maxDelay |
| Backoff.CappedBackoffMonotone | pkg/wiz/client.go:141-147 | the pre-jitter delay never decreases from one attempt to a later one |
| Backoff.JitterProductBounds | pkg/wiz/client.go:149-151 | the jitter multiplier lies between 0.9 and 1.1 of the capped delay |
| Backoff.BackoffWindow | pkg/wiz/client.go:140-154 | the final delay lies within a tenth of the capped delay on either side, up to truncation; the jitter is applied after the cap |
| Backoff.FirstDelayWindow | pkg/wiz/client.go:62-65 | with base 1 s, cap 32 s and fraction 0.1, the delay for attempt 0 lies in [0.9 s, 1.1 s] |
| Backoff.CappedDelayWindow | pkg/wiz/client.go:62-65 | attempt 5 reaches the 32 s cap exactly; its jittered delay lies in [28.8 s, 35.2 s] |
| Transport.Settle | pkg/wiz/client.go:99-133 | an attempt that is not retried succeeds iff it got status 200, a decodable envelope and no GraphQL errors; the data is then the result; another status gives the unexpected-status error with its body; GraphQL errors give the aggregated error |
| Transport.RunFrom | pkg/wiz/client.go:79-134 | from any attempt, the loop makes at most six attempts in all; every attempt before the last one was retryable; it stops early only on a non-retryable outcome; the last attempt decides the result |
| Transport.Delays | pkg/wiz/client.go:92-94 | the sleep after attempt k is calculateBackoff(k) with that attempt's jitter |
| Transport.GraphQLRequest | pkg/wiz/client.go:60-137 | a call makes 1 to 6 attempts; all attempts but the last were network failures or 429s; fewer than six attempts means the last one was not retryable; the last attempt's outcome is the result; one backoff sleep follows each attempt but the last |
| Transport.RateLimitExhaustion | pkg/wiz/client.go:105-113 | six consecutive 429s give exactly six attempts and the rate-limit error carrying 5 and the last body; there is never a seventh attempt |
| Transport.NetworkExhaustion | pkg/wiz/client.go:88-96 | six consecutive network failures give six attempts and the execution error |
| Transport.FatalOutcomeStopsAt | pkg/wiz/client.go:99-133 | the first non-retryable outcome, at attempt k, ends the call after k+1 attempts with that outcome's result |
| Transport.GraphQLErrorsNotRetried | pkg/wiz/client.go:129-131 | a 200 response carrying GraphQL errors fails on the first attempt, with no sleep |
| Transport.SleptDelaysBelowCap | pkg/wiz/client.go:92-111 | sleeps only follow attempts 0 to 4, so no slept delay exceeds 17.6 s, which is below maxDelay |
| Client.NewClient | pkg/wiz/client.go:33-57 | construction fails iff any of the four parameters is empty, with the missing-parameters error; otherwise the client keeps the API URL |
| Client.CursorVariables | pkg/wiz/client.go:222-225 | the cursor variable is present iff a non-empty cursor is given, and then holds it; no other variable is sent |
| Client.UsersVariables | pkg/wiz/client.go:177-182 | ListUsers always sends first=100, sends `after` iff a non-empty cursor is given, and sends nothing else |
| Client.Call | pkg/wiz/client.go:187-191 | an operation succeeds iff its request does, with the request's data; a failure is wrapped with the operation's name and the request's error |
| Client.ListUsers | pkg/wiz/client.go:159-192 | succeeds iff the request made with the users variables succeeds, and then returns the request's data; failures are wrapped as "list users" |
| Client.ListProjects | pkg/wiz/client.go:195-233 | succeeds iff the request made with the `cursor` variables succeeds, and then returns the request's data; failures are wrapped as "list projects" |
| Client.ListIssues | pkg/wiz/client.go:278-325 | succeeds iff the request made with the `cursor` variables succeeds, and then returns the request's data; failures are wrapped as "list issues" |
| Client.ListUserRoles | pkg/wiz/client.go:237-273 | the flat role array becomes a connection with one node per role, in array order, and zero page information; the cursor is ignored; failures pass through |
| Resources.CursorFromToken | pkg/connector/users.go:26-29 | an empty page token means no cursor; any other token is the cursor |
| Resources.NextPageToken | pkg/connector/users.go:80-83 | the next-page token is the end cursor when another page exists, and empty otherwise |
| Resources.NextCallResumesAtEndCursor | pkg/connector/projects.go:150-155 | the call after a page carries its end cursor iff another page exists and the cursor is non-empty; otherwise the token is empty, which reports the last page, so an empty end cursor with another page pending ends the collection early |
| Resources.FollowUpRequestCarriesCursor | pkg/wiz/client.go:222-225 | the follow-up request sends the previous page's end cursor exactly when another page exists and that cursor is non-empty |
| Users.ProjectIds | pkg/connector/users.go:50-53 | one project ID per assigned project, in order |
| Users.ProfileOf | pkg/connector/users.go:45-56 | the cached profile has `role_id` iff the effective role ID is non-empty, and `project_ids` iff a project is assigned, with the assigned IDs in order |
| Users.UserResource | pkg/connector/users.go:62-71 | the email is the resource ID and the display name; the user trait carries the email as primary, the enabled status and the cached profile |
| Users.UserResources | pkg/connector/users.go:37-77 | one user resource per user with an email, in page order, and none for the others |
| Users.List | pkg/connector/users.go:22-86 | a fetch failure is wrapped as "list users"; otherwise the items are the resources of the users with an email, in order, and the next-page token follows the page information |
| Users.ListThroughClient | pkg/connector/users.go:26-35 | listed through ListUsers, the page is requested with first=100 and the token's cursor, a failure is wrapped by the client and then by the mapper; the items are the resources of the response's users with an email, in order, and the next-page token follows the response |
| Users.ListDropsExactlyEmailless | pkg/connector/users.go:37-41 | the output is shorter than the page by exactly the number of users without an email, and no emitted ID is empty |
| Users.UserResourcesAppend | pkg/connector/users.go:37-77 | mapping a concatenation of pages equals concatenating their mappings |
| Users.Entitlements | pkg/connector/users.go:89-91 | users have no entitlements |
| Users.ProjectGrants | pkg/connector/users.go:127-150 | one project "member" grant per non-empty cached project ID, in order, for the user |
| Users.ProfileGrants | pkg/connector/users.go:110-150 | the role grant comes first iff a non-empty role ID is cached, then the project grants; every grant is "member" for the user |
| Users.Grants | pkg/connector/users.go:95-153 | fails iff the resource has no user trait; no profile gives no grants; otherwise the grants are read back from the cached profile |
| Users.ListThenGrants | pkg/connector/users.go:45-150 | the resource listed for a user yields the role grant iff the user has a non-empty effective role, then one project grant per non-empty assigned project ID, all with the email as principal |
| Users.NoRelationsNoGrants | pkg/connector/users.go:104-150 | a user with no effective role and no projects, which is all the users query returns, yields an empty grant page, not an error |
| Users.ListedGrantsNameListedUsers | pkg/connector/users.go:95-153 | every grant of a listed user names, by email, a user of the same page that has an email |
| Projects.ProjectResource | pkg/connector/projects.go:41-47 | a project becomes a group resource with the project ID, name and description |
| Projects.List | pkg/connector/projects.go:23-62 | a fetch failure is wrapped as "list projects"; otherwise one group per project, in order, with nothing filtered, and the next-page token follows the page information |
| Projects.Entitlements | pkg/connector/projects.go:65-80 | exactly one "member" entitlement on the project, grantable to users, named "<name> Project Member" and described as "Membership in <name> project", on a final page |
| Projects.OwnerEmails | pkg/connector/projects.go:111-114 | the owners' emails, in order |
| Projects.ChampionEmails | pkg/connector/projects.go:129-132 | the champions' emails, in order |
| Projects.EmailGrants | pkg/connector/projects.go:111-144 | one "member" grant on the project per non-empty email, in order, keyed by that email |
| Projects.ProjectGrants | pkg/connector/projects.go:109-144 | the owners' grants come first, one per owner with an email, in order; then one per champion with an email, in order; each is "member" on the project keyed by the email |
| Projects.ListThroughClient | pkg/connector/projects.go:33-36 | listed through ListProjects, the page is requested with the token's cursor, a failure is wrapped by the client and then by the mapper; the items are the groups of the response's projects, one each, in order, and the next-page token follows the response |
| Projects.ProjectGrantsShape | pkg/connector/projects.go:109-144 | the grant count is the owners with an email plus the champions with an email; each grant is "member" on the project for a user with a non-empty ID |
| Projects.FirstMatch | pkg/connector/projects.go:102-107 | finds the first project of the page with the requested ID, and finds none iff no project has it |
| Projects.Grants | pkg/connector/projects.go:84-158 | a fetch failure is wrapped as "list projects for grants"; only the first project with the requested ID contributes, owners then champions; with no match the grants are empty but the next-page token still follows the page |
| Projects.TwoOwnersOneChampion | pkg/connector/projects.go:109-147 | two owners and one champion, all with emails, give exactly three grants, owners first |
| Roles.RoleResource | pkg/connector/roles.go:41-47 | a role becomes a role resource with the role ID and the role name |
| Roles.List | pkg/connector/roles.go:23-61 | a fetch failure is wrapped as "list roles"; otherwise one role resource per role, in order, and the next-page token follows the page information |
| Roles.ListIsSinglePage | pkg/wiz/client.go:262-272 | listed through ListUserRoles, every role of the flat array appears in order, and the next-page token is empty whatever token was passed |
| Roles.Entitlements | pkg/connector/roles.go:64-79 | exactly one "member" entitlement on the role, grantable to users, named "<name> Role Member" and described as "Access to <name> role in Wiz", on a final page |
| Roles.RoleGrants | pkg/connector/roles.go:101-119 | one grant per user whose effective role matches the role's ID or display name, in page order, keyed by the user's ID |
| Roles.Grants | pkg/connector/roles.go:84-128 | a fetch failure is wrapped as "list users for role grants"; otherwise the grants are those of the matching users, and the next-page token follows the page information |
| Roles.GrantedIffHolds | pkg/connector/roles.go:105 | a user ID receives the grant iff some user of the page with that ID holds the role by ID or by name |
| Roles.RoleGrantPrincipalNotListed | pkg/connector/roles.go:106 | a page with one user whose ID differs from the email yields a grant whose principal no listed user resource has |
| Roles.RoleGrantsByEmail | pkg/connector/roles.go:101-119 | corrected: exactly one "member" grant per user with an email that holds the role, in page order, keyed by the email; each names a user resource that the user mapper lists from the same page |
| Roles.GrantsByEmail | pkg/connector/roles.go:84-128 | corrected: a fetch failure is wrapped as "list users for role grants"; otherwise the grants are the corrected role grants of the page, the next-page token follows the page, and every principal is a listed user resource |
| Roles.CorrectedRoleGrantIsUserRoleGrant | pkg/connector/users.go:111-124 | for a user with an email whose effective role is the role, the corrected role grant equals the role grant the user mapper emits from the cached role ID |
| Roles.NameOnlyMatchNotDuplicated | pkg/connector/roles.go:105 | a user whose effective role shares only the name of the role gets a corrected grant on that role which the user mapper, following the role ID, does not emit |
| Insights.DetectAppHint | pkg/connector/insights.go:22-35 | the hint is one of aws, azure, gcp, unknown: aws iff the ID starts with "arn:aws:"; azure iff not aws and it starts with "/subscriptions/"; gcp iff neither and it starts with "//" or contains "projects/"; unknown otherwise |
| Insights.ProjectPathContainsSlash | pkg/connector/insights.go:30 | the fourth rule's test for "/" is implied by its test for "projects/" |
| Insights.AwsExample | pkg/connector/insights.go:24-25 | an S3 ARN is classified as aws |
| Insights.AzureExample | pkg/connector/insights.go:26-27 | a subscription path is classified as azure |
| Insights.GcpExample | pkg/connector/insights.go:28-29 | a full GCP resource name starting with "//" is classified as gcp |
| Insights.AzureBeforeProjectPath | pkg/connector/insights.go:23-31 | the earlier rule wins: a subscription path that mentions projects is azure |
| Insights.ProjectPathExample | pkg/connector/insights.go:30-31 | an ID that contains "projects/" is classified as gcp |
| Insights.UnknownExample | pkg/connector/insights.go:32-33 | an ID that matches no rule is unknown |
| Insights.InsightIdInjective | pkg/connector/insights.go:62 | the composite "issueID:externalID" determines both parts when the issue ID has no colon |
| Insights.InsightIdCollision | pkg/connector/insights.go:62 | with a colon in the issue ID, two different pairs share a composite ID |
| Insights.PlatformText | pkg/connector/insights.go:71-74 | the description names the snapshot's cloud platform, or "Unknown" when it is null |
| Insights.InsightText | pkg/connector/insights.go:65 | the insight text is "[severity] ", then the issue type, then ": rule": its prefix, middle and suffix are each stated |
| Insights.InsightResource | pkg/connector/insights.go:62-95 | the resource ID is the composite ID; the display name is "rule - entity"; the trait carries "[severity] type: rule", the severity, the external ID, its app hint and the creation time |
| Insights.InsightResources | pkg/connector/insights.go:54-101 | one insight per issue with both an issue ID and an external ID, in page order |
| Insights.List | pkg/connector/insights.go:39-110 | a fetch failure is wrapped as "list issues"; otherwise the page shrinks by exactly the skipped issues, each kept issue becomes its insight in order, and the next-page token follows the page information |
| Insights.ListThroughClient | pkg/connector/insights.go:43-52 | listed through ListIssues, the page is requested with the token's cursor, a failure is wrapped by the client and then by the mapper; the items are the insights of the response's identifiable issues, in order, and the next-page token follows the response |
| Insights.ListedIdsDistinct | pkg/connector/insights.go:61-62 | distinct listed issues whose IDs hold no colon get distinct resource IDs |
| Insights.Entitlements | pkg/connector/insights.go:113-115 | insights have no entitlements |
| Insights.Grants | pkg/connector/insights.go:118-120 | insights have no grants |

## Left out

- OAuth2 client-credentials setup, the HTTP client and `context` cancellation are left out. The server is an abstract function from variables to attempt outcomes.
- The query texts and the JSON encoding and decoding are left out. Decoding is the `Decoded` outcome of an attempt, so the server-side filters of the issues query and the fields each query selects are not modelled.
- The failure to marshal the request body (client.go:73-76) is left out: the body is a fixed map of a string and primitive values.
- The final `return lastErr` (client.go:136) is unreachable, because the last attempt always returns inside the loop. It has no counterpart in the model.
- `time.Sleep` is left out. The model records the delays that would be slept.
- `calculateBackoff` uses floating point; the model uses exact integers. The jitter draw is on a grid of 1e-6 instead of a double.
- Backoff.CalculateBackoff: carries no contract of its own; its window is stated by Backoff.BackoffWindow and the two window lemmas.
- The SDK constructors `NewUserResource`, `NewRoleResource`, `NewGroupResource`, `NewResource` and `NewResourceID` never fail for the arguments used here. Their error branches (for example users.go:72-74) are left out.
- Users.Grants: the profile is a typed record, not a protobuf `Struct`. A `role_id` or `project_ids` entry of another JSON type is not modelled.
- Insights.InsightResource: the contract does not state the text of the description string; it states the ID, display name and trait.
- The connector's wiring, resource-type declarations, configuration and command-line entry point are not part of this model.

## Findings

| source | as written | input that shows it | evidently intended | confidence | as-written member | corrected member |
|---|---|---|---|---|---|---|
| pkg/connector/roles.go:106 | a role grant's principal is the user ID (`user.ID`) | a user with ID "u-1", email "alice@example.com" and role "r-1", granting role "r-1" | the principal is keyed by email, like every user resource the user mapper emits, and users without an email are skipped; so keyed, each grant for a user matched by role ID duplicates the role grant the user mapper already emits from the cached role ID (users.go:111-124); a user matched by role name only gets a grant the user mapper does not emit, so it is no duplicate | not executed | Roles.RoleGrantPrincipalNotListed | Roles.GrantsByEmail |
