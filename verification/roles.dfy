/** The role mapper. Roles are listed from the flat role array, so the
    collection is always a single page; grants come from re-reading the
    users page and matching each user's effective role by ID or by name. */
module Roles {
  import opened Wrappers
  import opened Models
  import opened Seqs
  import opened Client
  import opened Resources
  import Users
  import Text

  function RoleResource(role: UserRole): (r: Resource)
    ensures r.id == ResourceId(RoleType, role.id)
    ensures r.displayName == role.name
    ensures r.details == RoleTrait
  {
    Resource(ResourceId(RoleType, role.id), role.name, "", RoleTrait)
  }

  /** List emits one role resource per role, in order. */
  function List(token: string, fetch: Fetch<UserRole>): (r: Result<Page<Resource>, ConnectorError>)
    ensures var resp := fetch(CursorFromToken(token));
            && (r.Failure? <==> resp.Failure?)
            && (r.Failure? ==> r.error == Wrapped("list roles", resp.error))
            && (r.Success? ==>
                  && |r.value.items| == |resp.value.nodes|
                  && (forall i :: 0 <= i < |resp.value.nodes| ==>
                        r.value.items[i] == RoleResource(resp.value.nodes[i]))
                  && r.value.nextPageToken == NextPageToken(resp.value.pageInfo))
  {
    match fetch(CursorFromToken(token))
    case Failure(e) => Failure(Wrapped("list roles", e))
    case Success(resp) =>
      var nodes := resp.nodes;
      Success(Page(seq(|nodes|, i requires 0 <= i < |nodes| => RoleResource(nodes[i])), NextPageToken(resp.pageInfo)))
  }

  /** Listed through ListUserRoles, the roles always form one page: every
      role of the flat array appears, in order, and the next token is empty,
      whatever token was passed in. */
  lemma ListIsSinglePage(token: string, server: Server<seq<UserRole>>, jitter: Transport.Jitter)
    ensures var r := List(token, UserRolesFetch(server, jitter));
            var flat := Call("list user roles", server, UserRolesVariables, jitter);
            && (r.Success? <==> flat.Success?)
            && (r.Success? ==>
                  && r.value.nextPageToken == ""
                  && |r.value.items| == |flat.value|
                  && forall i :: 0 <= i < |flat.value| ==> r.value.items[i] == RoleResource(flat.value[i]))
  {
  }

  /** Exactly one "member" entitlement, grantable to users. */
  function Entitlements(res: Resource): (r: Result<Page<Entitlement>, ConnectorError>)
    ensures r.Success? && |r.value.items| == 1 && r.value.nextPageToken == ""
    ensures var e := r.value.items[0];
            e.resource == res.id && e.slug == Member && e.grantableTo == [UserType]
    ensures var e := r.value.items[0];
            e.displayName == res.displayName + " Role Member" && e.description == "Access to " + res.displayName + " role in Wiz"
  {
    Success(Page([Entitlement(
      res.id, Member, [UserType],
      res.displayName + " Role Member",
      "Access to " + res.displayName + " role in Wiz")], ""))
  }

  /** A user holds the role if its effective role has the role's ID, or the
      role's display name. */
  predicate HoldsRole(u: User, roleId: string, displayName: string) {
    u.effectiveRole.id == roleId || u.effectiveRole.name == displayName
  }

  function Holders(res: Resource): User -> bool {
    u => HoldsRole(u, res.id.resource, res.displayName)
  }

  /** One grant per matching user, in page order, keyed by the user's ID. */
  function RoleGrants(res: Resource, users: seq<User>): (gs: seq<Grant>)
    ensures |gs| == |Filter(users, Holders(res))|
    ensures forall i :: 0 <= i < |gs| ==>
      gs[i] == Grant(res.id, Member, ResourceId(UserType, Filter(users, Holders(res))[i].id))
  {
    if |users| == 0 then []
    else if HoldsRole(users[0], res.id.resource, res.displayName) then
      [Grant(res.id, Member, ResourceId(UserType, users[0].id))] + RoleGrants(res, users[1..])
    else RoleGrants(res, users[1..])
  }

  /** Grants as written: the principal of each grant is the user's ID. */
  function Grants(res: Resource, token: string, fetch: Fetch<User>): (r: Result<Page<Grant>, ConnectorError>)
    ensures var resp := fetch(CursorFromToken(token));
            && (r.Failure? <==> resp.Failure?)
            && (r.Failure? ==> r.error == Wrapped("list users for role grants", resp.error))
            && (r.Success? ==>
                  && r.value.items == RoleGrants(res, resp.value.nodes)
                  && r.value.nextPageToken == NextPageToken(resp.value.pageInfo))
  {
    match fetch(CursorFromToken(token))
    case Failure(e) => Failure(Wrapped("list users for role grants", e))
    case Success(resp) => Success(Page(RoleGrants(res, resp.nodes), NextPageToken(resp.pageInfo)))
  }

  /** A user is granted the role if and only if it holds it. */
  lemma GrantedIffHolds(res: Resource, users: seq<User>, u: User)
    ensures Grant(res.id, Member, ResourceId(UserType, u.id)) in RoleGrants(res, users) <==>
      exists v :: v in users && HoldsRole(v, res.id.resource, res.displayName) && v.id == u.id
  {
    var gs := RoleGrants(res, users);
    var kept := Filter(users, Holders(res));
    var g := Grant(res.id, Member, ResourceId(UserType, u.id));
    if g in gs {
      var i :| 0 <= i < |gs| && gs[i] == g;
      FilterMembers(users, Holders(res), kept[i]);
    }
    if exists v :: v in users && HoldsRole(v, res.id.resource, res.displayName) && v.id == u.id {
      var v :| v in users && HoldsRole(v, res.id.resource, res.displayName) && v.id == u.id;
      FilterMembers(users, Holders(res), v);
      var i :| 0 <= i < |kept| && kept[i] == v;
      assert gs[i] == g;
    }
  }

  /** The principal IDs the user mapper emits for a page: the emails. */
  ghost predicate ListedUser(nodes: seq<User>, principal: ResourceId) {
    exists k :: 0 <= k < |Users.UserResources(nodes)| && Users.UserResources(nodes)[k].id == principal
  }

  /** The role grants as written can name principals the user mapper never
      emits: user resources are keyed by email, these grants by user ID. */
  lemma RoleGrantPrincipalNotListed()
    ensures var u := User("u-1", "alice@example.com", "Alice", UserRoleRef("r-1", "Admin"), []);
            var res := RoleResource(UserRole("r-1", "Admin", "", [], true, false));
            var gs := RoleGrants(res, [u]);
            && |gs| == 1
            && gs[0].principal == ResourceId(UserType, "u-1")
            && !ListedUser([u], gs[0].principal)
  {
    var u := User("u-1", "alice@example.com", "Alice", UserRoleRef("r-1", "Admin"), []);
    var res := RoleResource(UserRole("r-1", "Admin", "", [], true, false));
    assert Filter([u], Holders(res)) == [u];
    assert Filter([u], Users.HasEmail) == [u];
    assert Users.UserResources([u])[0].id == ResourceId(UserType, "alice@example.com");
    assert "alice@example.com" != "u-1";
  }

  /** The users the corrected grants name: those with an email that hold the role. */
  function EmailHolders(res: Resource): User -> bool {
    u => Users.HasEmail(u) && HoldsRole(u, res.id.resource, res.displayName)
  }

  /** Corrected role grants: keyed by email like every other user reference,
      skipping users without an email. One grant per such holder, in page
      order, each naming a user resource the user mapper lists. */
  function RoleGrantsByEmail(res: Resource, users: seq<User>): (gs: seq<Grant>)
    ensures |gs| == |Filter(users, EmailHolders(res))|
    ensures forall i :: 0 <= i < |gs| ==>
      gs[i] == Grant(res.id, Member, ResourceId(UserType, Filter(users, EmailHolders(res))[i].email))
    ensures forall i :: 0 <= i < |gs| ==> ListedUser(users, gs[i].principal)
  {
    if |users| == 0 then []
    else
      var rest := RoleGrantsByEmail(res, users[1..]);
      ListedTail(users);
      if Users.HasEmail(users[0]) && HoldsRole(users[0], res.id.resource, res.displayName) then
        assert Users.UserResources(users)[0].id == ResourceId(UserType, users[0].email);
        [Grant(res.id, Member, ResourceId(UserType, users[0].email))] + rest
      else rest
  }

  /** A user listed from the tail of a page is listed from the whole page. */
  lemma ListedTail(users: seq<User>)
    requires |users| > 0
    ensures forall p :: ListedUser(users[1..], p) ==> ListedUser(users, p)
  {
    var tail := Users.UserResources(users[1..]);
    var whole := Users.UserResources(users);
    var skip := if Users.HasEmail(users[0]) then 1 else 0;
    assert whole[skip..] == tail;
    forall p | ListedUser(users[1..], p)
      ensures ListedUser(users, p)
    {
      var k :| 0 <= k < |tail| && tail[k].id == p;
      assert whole[skip + k] == tail[k];
    }
  }

  /** Corrected Grants: the page's corrected role grants; every principal is
      a user resource that the user mapper lists from the same page. */
  function GrantsByEmail(res: Resource, token: string, fetch: Fetch<User>): (r: Result<Page<Grant>, ConnectorError>)
    ensures var resp := fetch(CursorFromToken(token));
            && (r.Failure? <==> resp.Failure?)
            && (r.Failure? ==> r.error == Wrapped("list users for role grants", resp.error))
            && (r.Success? ==>
                  && r.value.items == RoleGrantsByEmail(res, resp.value.nodes)
                  && r.value.nextPageToken == NextPageToken(resp.value.pageInfo)
                  && forall i :: 0 <= i < |r.value.items| ==> ListedUser(resp.value.nodes, r.value.items[i].principal))
  {
    match fetch(CursorFromToken(token))
    case Failure(e) => Failure(Wrapped("list users for role grants", e))
    case Success(resp) => Success(Page(RoleGrantsByEmail(res, resp.nodes), NextPageToken(resp.pageInfo)))
  }

  /** For a user matched by role ID, the corrected role grant coincides with
      the role grant the user mapper already emits from the cached `role_id`:
      once keyed by email, the two mappers report that grant twice. */
  lemma CorrectedRoleGrantIsUserRoleGrant(u: User, role: UserRole)
    requires Users.HasEmail(u) && role.id != "" && u.effectiveRole.id == role.id
    ensures var gs := RoleGrantsByEmail(RoleResource(role), [u]);
            var us := Users.Grants(Users.UserResource(u));
            && |gs| == 1 && us.Success? && |us.value.items| >= 1
            && gs[0] == us.value.items[0]
  {
    var res := RoleResource(role);
    assert EmailHolders(res)(u);
    assert Filter([u], EmailHolders(res)) == [u];
    Users.ListThenGrants(u);
  }

  /** A user matched by role name only is not granted that role by the user
      mapper, whose role grant follows the effective role's ID: such a
      corrected grant is not a duplicate. */
  lemma NameOnlyMatchNotDuplicated()
    ensures var u := User("u-1", "alice@example.com", "Alice", UserRoleRef("r-2", "Admin"), []);
            var res := RoleResource(UserRole("r-1", "Admin", "", [], true, false));
            var gs := RoleGrantsByEmail(res, [u]);
            var us := Users.Grants(Users.UserResource(u));
            && |gs| == 1 && us.Success?
            && gs[0] == Grant(ResourceId(RoleType, "r-1"), Member, ResourceId(UserType, "alice@example.com"))
            && gs[0] !in us.value.items
  {
    var u := User("u-1", "alice@example.com", "Alice", UserRoleRef("r-2", "Admin"), []);
    var res := RoleResource(UserRole("r-1", "Admin", "", [], true, false));
    assert EmailHolders(res)(u);
    assert Filter([u], EmailHolders(res)) == [u];
    Users.ListThenGrants(u);
    var items := Users.Grants(Users.UserResource(u)).value.items;
    assert Filter(Users.ProjectIds([]), Text.NonEmpty) == [];
    assert items == [Grant(ResourceId(RoleType, "r-2"), Member, ResourceId(UserType, "alice@example.com"))];
    assert "r-1" != "r-2";
  }
}
