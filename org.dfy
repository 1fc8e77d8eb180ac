/**
 * The organization resource type of pkg/connector/org.go: the organizations
 * the credentials reach, limited to a configured allow-list, with their role
 * entitlements and their users' grants.
 */
module OrgAdapter {
  import opened Wrappers
  import opened Decimal
  import opened Models
  import opened Errors
  import opened Resources
  import opened PageTokens
  import opened RequestOptions
  import opened BillClient
  import opened UserAdapter

  const ListOrgsContext := "bill-connector: failed to list organizations"
  const LoginContext := "bill-connector: failed to login to organization"
  const OrgRolesContext := "bill-connector: failed to get user roles"
  const OrgUsersContext := "bill-connector: failed to get users"

  /** `organizationResource`: keyed by the organization's id, with users as children. */
  function OrganizationResource(org: Organization, parent: Option<ResourceId>): (r: Resource)
    ensures r.id == ResourceId(OrganizationType, org.id) && r.displayName == org.name
    ensures r.parent == parent && r.kind.NoTrait? && r.childResourceTypes == [UserType]
  {
    Resource(ResourceId(OrganizationType, org.id), org.name, parent, NoTrait, [UserType])
  }

  /** The resources of `allowed`, in order. */
  function OrgResources(allowed: seq<Organization>, parent: Option<ResourceId>): (rs: seq<Resource>)
    ensures |rs| == |allowed|
    ensures forall i :: 0 <= i < |allowed| ==> rs[i] == OrganizationResource(allowed[i], parent)
  {
    seq(|allowed|, i requires 0 <= i < |allowed| => OrganizationResource(allowed[i], parent))
  }

  lemma OrgResourcesAppend(allowed: seq<Organization>, org: Organization, parent: Option<ResourceId>)
    ensures OrgResources(allowed + [org], parent) == OrgResources(allowed, parent) + [OrganizationResource(org, parent)]
  {
    assert OrgResources(allowed + [org], parent)[..|allowed|] == OrgResources(allowed, parent);
  }

  /** The organizations `List` keeps: all of them when the allow-list is empty. */
  function Allowed(orgs: seq<Organization>, allow: map<string, Organization>): (r: seq<Organization>)
    ensures |r| <= |orgs|
  {
    AllowedPrefix(orgs, |orgs|, allow)
  }

  /** The first `n` of `orgs` are filtered the same whatever follows them. */
  lemma {:induction false} AllowedPrefixExtend(orgs: seq<Organization>, more: seq<Organization>, n: nat, allow: map<string, Organization>)
    requires n <= |orgs|
    ensures AllowedPrefix(orgs + more, n, allow) == AllowedPrefix(orgs, n, allow)
  {
    if n > 0 {
      AllowedPrefixExtend(orgs, more, n - 1, allow);
      assert (orgs + more)[n - 1] == orgs[n - 1];
    }
  }

  /** Filtering `xs + ys` past `xs` continues with the filter of `ys`. */
  lemma {:induction false} AllowedPrefixAppend(xs: seq<Organization>, ys: seq<Organization>, k: nat, allow: map<string, Organization>)
    requires k <= |ys|
    ensures AllowedPrefix(xs + ys, |xs| + k, allow) == Allowed(xs, allow) + AllowedPrefix(ys, k, allow)
  {
    if k == 0 {
      AllowedPrefixExtend(xs, ys, |xs|, allow);
    } else {
      AllowedPrefixAppend(xs, ys, k - 1, allow);
      assert (xs + ys)[|xs| + k - 1] == ys[k - 1];
    }
  }

  /** The organizations kept from a concatenation are those kept from each part, in order. */
  lemma AllowedAppend(xs: seq<Organization>, ys: seq<Organization>, allow: map<string, Organization>)
    ensures Allowed(xs + ys, allow) == Allowed(xs, allow) + Allowed(ys, allow)
  {
    AllowedPrefixAppend(xs, ys, |ys|, allow);
  }

  /** One organization is kept, once, exactly when the allow-list is empty or names it. */
  lemma AllowedSingleton(o: Organization, allow: map<string, Organization>)
    ensures Allowed([o], allow) == if |allow| == 0 || o.id in allow then [o] else []
  {
  }

  /** The organizations among the first `n` of `orgs` that `List` keeps, in order. */
  function AllowedPrefix(orgs: seq<Organization>, n: nat, allow: map<string, Organization>): (r: seq<Organization>)
    requires n <= |orgs|
    ensures |r| <= n
  {
    if n == 0 then []
    else
      var rest := AllowedPrefix(orgs, n - 1, allow);
      var x := orgs[n - 1];
      if |allow| == 0 || x.id in allow then rest + [x] else rest
  }

  /** An organization is kept exactly when it is listed and allowed. */
  lemma AllowedMembers(orgs: seq<Organization>, allow: map<string, Organization>)
    ensures forall o :: o in Allowed(orgs, allow) <==> o in orgs && (|allow| == 0 || o.id in allow)
  {
    AllowedPrefixMembers(orgs, |orgs|, allow);
    assert orgs[..|orgs|] == orgs;
  }

  lemma {:induction false} AllowedPrefixMembers(orgs: seq<Organization>, n: nat, allow: map<string, Organization>)
    requires n <= |orgs|
    ensures forall o :: o in AllowedPrefix(orgs, n, allow) <==> o in orgs[..n] && (|allow| == 0 || o.id in allow)
  {
    if n > 0 {
      AllowedPrefixMembers(orgs, n - 1, allow);
      assert orgs[..n] == orgs[..n - 1] + [orgs[n - 1]];
    }
  }

  /** With no allow-list every organization is kept, in order. */
  lemma AllowedEverything(orgs: seq<Organization>, allow: map<string, Organization>)
    requires |allow| == 0
    ensures Allowed(orgs, allow) == orgs
  {
    AllowedPrefixEverything(orgs, |orgs|, allow);
    assert orgs[..|orgs|] == orgs;
  }

  lemma {:induction false} AllowedPrefixEverything(orgs: seq<Organization>, n: nat, allow: map<string, Organization>)
    requires |allow| == 0 && n <= |orgs|
    ensures AllowedPrefix(orgs, n, allow) == orgs[..n]
  {
    if n > 0 {
      AllowedPrefixEverything(orgs, n - 1, allow);
      assert orgs[..n] == orgs[..n - 1] + [orgs[n - 1]];
    }
  }

  /** The outcome of logging into a sequence of organizations, stopping at the first failure. */
  datatype LoginRunResult = LoginRunResult(credentials: Credentials, error: Option<Error>, attempted: seq<string>)

  /** How one `Login` changes the credentials, and its error. */
  type Stepper = (Credentials, string) -> (Credentials, Option<Error>)

  /** The step of a client talking to `transport`: `LoginStep`. */
  function ClientStep(transport: Transport): (step: Stepper)
    ensures forall c, id :: step(c, id) == LoginStep(transport, c, id)
  {
    (c, id) => LoginStep(transport, c, id)
  }

  /** `Login` into each of `orgs` in order from `c` until one fails; `attempted` lists the ids tried. */
  function LoginRun(step: Stepper, c: Credentials, orgs: seq<Organization>): (r: LoginRunResult)
    ensures |r.attempted| <= |orgs|
    ensures r.error.None? ==> |r.attempted| == |orgs|
    decreases |orgs|
  {
    if |orgs| == 0 then LoginRunResult(c, None, [])
    else
      var before := LoginRun(step, c, orgs[..|orgs| - 1]);
      if before.error.Some? then before
      else
        var id := orgs[|orgs| - 1].id;
        var next := step(before.credentials, id);
        LoginRunResult(next.0, next.1, before.attempted + [id])
  }

  lemma LoginRunStep(step: Stepper, c: Credentials, xs: seq<Organization>, x: Organization)
    requires LoginRun(step, c, xs).error.None?
    ensures var before := LoginRun(step, c, xs);
      var next := step(before.credentials, x.id);
      LoginRun(step, c, xs + [x]) == LoginRunResult(next.0, next.1, before.attempted + [x.id])
  {
    assert (xs + [x])[..|xs|] == xs;
  }

  /** Once a login has failed, later organizations are not tried. */
  lemma {:induction false} LoginRunSticky(step: Stepper, c: Credentials, xs: seq<Organization>, ys: seq<Organization>)
    requires LoginRun(step, c, xs).error.Some?
    ensures LoginRun(step, c, xs + ys) == LoginRun(step, c, xs)
    decreases |ys|
  {
    if |ys| == 0 {
      assert xs + ys == xs;
    } else {
      var ys' := ys[..|ys| - 1];
      assert (xs + ys)[..|xs + ys| - 1] == xs + ys';
      LoginRunSticky(step, c, xs, ys');
    }
  }

  /** The client has logged into `done` in turn from `start`, with no failure so far. */
  ghost predicate LoginsSoFar(client: Client, step: Stepper, start: Credentials, logins: seq<string>, done: seq<Organization>)
    reads client
  {
    var run := LoginRun(step, start, done);
    && run.error.None?
    && client.credentials == run.credentials
    && client.logins == logins + run.attempted
  }

  /** A failed login among the first `n` organizations is the outcome of the run over the first `m`. */
  lemma {:induction false} LoginRunStops(step: Stepper, c: Credentials, organizations: seq<Organization>, n: nat, m: nat,
                                         allow: map<string, Organization>)
    requires n <= m <= |organizations|
    requires LoginRun(step, c, AllowedPrefix(organizations, n, allow)).error.Some?
    ensures LoginRun(step, c, AllowedPrefix(organizations, m, allow)) == LoginRun(step, c, AllowedPrefix(organizations, n, allow))
    decreases m
  {
    if m > n {
      LoginRunStops(step, c, organizations, n, m - 1, allow);
      var before := AllowedPrefix(organizations, m - 1, allow);
      LoginRunSticky(step, c, before, AllowedPrefix(organizations, m, allow)[|before|..]);
      assert before + AllowedPrefix(organizations, m, allow)[|before|..] == AllowedPrefix(organizations, m, allow);
    }
  }

  /**
   * The ids tried are the first organizations' ids in order; all of them
   * when no login fails, and the last one tried is the one that failed.
   */
  lemma {:induction false} LoginRunAttempts(step: Stepper, c: Credentials, orgs: seq<Organization>)
    ensures var r := LoginRun(step, c, orgs);
      && |r.attempted| <= |orgs|
      && (forall i :: 0 <= i < |r.attempted| ==> r.attempted[i] == orgs[i].id)
      && (r.error.None? ==> |r.attempted| == |orgs|)
      && (r.error.Some? ==> |r.attempted| > 0)
    decreases |orgs|
  {
    if |orgs| > 0 {
      var prefix := orgs[..|orgs| - 1];
      LoginRunAttempts(step, c, prefix);
      var before := LoginRun(step, c, prefix);
      forall i | 0 <= i < |before.attempted| ensures before.attempted[i] == orgs[i].id {
        assert orgs[i] == prefix[i];
      }
    }
  }

  /**
   * A listing that fails fails at the last organization tried: every earlier
   * login succeeded, and the error is that last login's.
   */
  lemma {:induction false} LoginRunFailure(step: Stepper, c: Credentials, orgs: seq<Organization>)
    ensures var r := LoginRun(step, c, orgs);
      r.error.Some? ==>
        var k := |r.attempted| - 1;
        && 0 <= k < |orgs|
        && LoginRun(step, c, orgs[..k]).error.None?
        && (r.credentials, r.error) == step(LoginRun(step, c, orgs[..k]).credentials, orgs[k].id)
    decreases |orgs|
  {
    if |orgs| > 0 {
      var prefix := orgs[..|orgs| - 1];
      var before := LoginRun(step, c, prefix);
      var r := LoginRun(step, c, orgs);
      if before.error.Some? {
        LoginRunFailure(step, c, prefix);
        var k := |before.attempted| - 1;
        assert prefix[..k] == orgs[..k];
      } else {
        assert |before.attempted| == |orgs| - 1;
      }
    }
  }

  /** A role profile as a permission entitlement of the organization, named by the role, grantable to users. */
  function OrgRoleEntitlement(resource: Resource, role: UserRoleProfile): (e: Entitlement)
    ensures e.resource == resource.id && e.slug == role.name
    ensures e.purpose == Permission && e.grantableTo == [UserType]
  {
    Entitlement(resource.id, role.name, Permission, [UserType])
  }

  /** Whether `Entitlements` emits the membership entitlement for this token. */
  predicate FirstPage(token: Option<Token>) {
    token.None? || token.value.token == ""
  }

  /** How `Grants` finds a user's role profile by id: `GetUserRoleProfile`. */
  type RoleLookup = string -> Result<UserRoleProfile, Error>

  /** The role lookup of a client, with its current credentials. */
  function ClientRoles(client: Client): (roles: RoleLookup)
    reads client
    ensures forall id :: roles(id) == client.RoleProfileReply(id)
  {
    var transport, codec, c := client.transport, client.codec, client.credentials;
    id => RoleProfileLookup(transport, codec, c, id)
  }

  /**
   * The grants of `users`: for each, a grant of the user's role and a
   * membership grant, or the first error met looking a role up.
   */
  function OrgGrants(roles: RoleLookup, resource: Resource, users: seq<User>): (r: Result<seq<Grant>, Error>)
    ensures r.Ok? ==> |r.value| == 2 * |users|
    decreases |users|
  {
    if |users| == 0 then Ok([])
    else
      match OrgGrants(roles, resource, users[..|users| - 1])
      case Err(e) => Err(e)
      case Ok(gs) =>
        var u := users[|users| - 1];
        match roles(u.roleId)
        case Err(e) => Err(e)
        case Ok(role) =>
          var principal := UserResource(u, None).id;
          Ok(gs + [Grant(resource.id, role.name, principal), Grant(resource.id, MemberSlug, principal)])
  }

  /** A role lookup of every user succeeds exactly when the grants come out. */
  predicate AllRolesFound(roles: RoleLookup, users: seq<User>)
  {
    forall i :: 0 <= i < |users| ==> roles(users[i].roleId).Ok?
  }

  /** The grants come out exactly when every role lookup succeeds. */
  lemma {:induction false} OrgGrantsFound(roles: RoleLookup, resource: Resource, users: seq<User>)
    ensures OrgGrants(roles, resource, users).Ok? <==> AllRolesFound(roles, users)
    decreases |users|
  {
    if |users| > 0 {
      var prefix := users[..|users| - 1];
      OrgGrantsFound(roles, resource, prefix);
      assert forall i :: 0 <= i < |prefix| ==> prefix[i] == users[i];
      if !AllRolesFound(roles, users) && AllRolesFound(roles, prefix) {
        assert !roles(users[|users| - 1].roleId).Ok?;
      }
    }
  }

  /**
   * A failure is the error of the first role lookup that fails: every user
   * before it was looked up successfully.
   */
  lemma {:induction false} OrgGrantsFirstError(roles: RoleLookup, resource: Resource, users: seq<User>)
    requires OrgGrants(roles, resource, users).Err?
    ensures exists k ::
      && 0 <= k < |users|
      && AllRolesFound(roles, users[..k])
      && roles(users[k].roleId) == Err(OrgGrants(roles, resource, users).error)
    decreases |users|
  {
    var prefix := users[..|users| - 1];
    var last := |users| - 1;
    assert forall i :: 0 <= i < |prefix| ==> prefix[i] == users[i];
    match OrgGrants(roles, resource, prefix)
    case Err(e) =>
      OrgGrantsFirstError(roles, resource, prefix);
      var k :| 0 <= k < |prefix| && AllRolesFound(roles, prefix[..k]) && roles(prefix[k].roleId) == Err(e);
      assert prefix[..k] == users[..k];
    case Ok(_) =>
      OrgGrantsFound(roles, resource, prefix);
      assert users[..last] == prefix;
      assert roles(users[last].roleId).Err?;
  }

  /**
   * When the grants come out there are two per user, in user order: the
   * user's role name, then membership.
   */
  lemma {:induction false} OrgGrantsLayout(roles: RoleLookup, resource: Resource, users: seq<User>)
    requires OrgGrants(roles, resource, users).Ok?
    ensures var gs := OrgGrants(roles, resource, users).value;
      && |gs| == 2 * |users|
      && forall i :: 0 <= i < |users| ==>
           && roles(users[i].roleId).Ok?
           && gs[2 * i] == Grant(resource.id, roles(users[i].roleId).value.name, ResourceId(UserType, users[i].id))
           && gs[2 * i + 1] == Grant(resource.id, MemberSlug, ResourceId(UserType, users[i].id))
    decreases |users|
  {
    if |users| > 0 {
      var prefix := users[..|users| - 1];
      OrgGrantsLayout(roles, resource, prefix);
      var before := OrgGrants(roles, resource, prefix).value;
      var u := users[|users| - 1];
      var principal := ResourceId(UserType, u.id);
      var gs := OrgGrants(roles, resource, users).value;
      assert gs == before + [Grant(resource.id, roles(u.roleId).value.name, principal), Grant(resource.id, MemberSlug, principal)];
      forall i | 0 <= i < |users|
        ensures && roles(users[i].roleId).Ok?
                && gs[2 * i] == Grant(resource.id, roles(users[i].roleId).value.name, ResourceId(UserType, users[i].id))
                && gs[2 * i + 1] == Grant(resource.id, MemberSlug, ResourceId(UserType, users[i].id))
      {
        if i < |prefix| {
          assert prefix[i] == users[i];
          assert gs[2 * i] == before[2 * i] && gs[2 * i + 1] == before[2 * i + 1];
        }
      }
    }
  }

  class OrganizationResourceType {
    const client: Client
    const bags: BagCodec
    /** The allow-list: organization ids mapped to placeholder organizations. */
    const orgs: map<string, Organization>

    constructor (client: Client, bags: BagCodec, orgs: map<string, Organization>)
      ensures this.client == client && this.bags == bags && this.orgs == orgs
    {
      this.client := client;
      this.bags := bags;
      this.orgs := orgs;
    }

    /**
     * `List`: every allowed organization the credentials can list, logging
     * the client into each in turn. A failed login ends the listing, with
     * the client left as that login left it. Not paged.
     */
    method List(parent: Option<ResourceId>, token: Option<Token>) returns (page: Page<Resource>, err: Option<Error>)
      modifies client
      ensures var listed := old(client.OrganizationsReply());
        listed.Err? ==>
          && page == Page([], "") && err == Some(Wrapped(ListOrgsContext, listed.error))
          && client.credentials == old(client.credentials) && client.logins == old(client.logins)
      ensures var listed := old(client.OrganizationsReply());
        listed.Ok? ==>
          var allowed := Allowed(listed.value, orgs);
          var run := LoginRun(ClientStep(client.transport), old(client.credentials), allowed);
          && client.credentials == run.credentials
          && client.logins == old(client.logins) + run.attempted
          && (run.error.Some? ==> page == Page([], "") && err == Some(Wrapped(LoginContext, run.error.value)))
          && (run.error.None? ==>
                && err == None && page.nextToken == ""
                && |page.items| == |allowed|
                && forall i :: 0 <= i < |allowed| ==> page.items[i] == OrganizationResource(allowed[i], parent))
    {
      var organizations, listErr := client.GetOrganizations();
      if listErr.Some? {
        return Page([], ""), Some(Wrapped(ListOrgsContext, listErr.value));
      }
      assert old(client.OrganizationsReply()) == Ok(organizations);
      var rv, loginErr := LoginEach(organizations, parent, ClientStep(client.transport));
      if loginErr.Some? {
        return Page([], ""), Some(Wrapped(LoginContext, loginErr.value));
      }
      return Page(rv, ""), None;
    }

    /**
     * The loop of `List`: skips the organizations outside the allow-list and
     * logs into the others in order, collecting their resources, until a
     * login fails.
     */
    method LoginEach(organizations: seq<Organization>, parent: Option<ResourceId>, ghost step: Stepper)
      returns (rv: seq<Resource>, err: Option<Error>)
      modifies client
      requires forall c, id {:trigger LoginStep(client.transport, c, id)} ::
        step(c, id) == LoginStep(client.transport, c, id)
      ensures var allowed := Allowed(organizations, orgs);
        var run := LoginRun(step, old(client.credentials), allowed);
        && client.credentials == run.credentials
        && client.logins == old(client.logins) + run.attempted
        && err == run.error
        && (err.None? ==> rv == OrgResources(allowed, parent))
    {
      ghost var start, logins := client.credentials, client.logins;
      rv := [];
      for i := 0 to |organizations|
        invariant LoginsSoFar(client, step, start, logins, AllowedPrefix(organizations, i, orgs))
        invariant rv == OrgResources(AllowedPrefix(organizations, i, orgs), parent)
      {
        rv, err := Visit(organizations, i, parent, step, start, logins, rv);
        if err.Some? {
          LoginRunStops(step, start, organizations, i + 1, |organizations|, orgs);
          return [], err;
        }
      }
      err := None;
    }

    /**
     * One turn of the loop of `List`: an organization outside a non-empty
     * allow-list is skipped; any other is logged into, as one more step of
     * `LoginRun`, and its resource collected.
     */
    method Visit(organizations: seq<Organization>, i: nat, parent: Option<ResourceId>, ghost step: Stepper,
                 ghost start: Credentials, ghost logins: seq<string>, rv: seq<Resource>)
      returns (rv': seq<Resource>, err: Option<Error>)
      modifies client
      requires i < |organizations|
      requires forall c, id {:trigger LoginStep(client.transport, c, id)} ::
        step(c, id) == LoginStep(client.transport, c, id)
      requires LoginsSoFar(client, step, start, logins, AllowedPrefix(organizations, i, orgs))
      requires rv == OrgResources(AllowedPrefix(organizations, i, orgs), parent)
      ensures var run := LoginRun(step, start, AllowedPrefix(organizations, i + 1, orgs));
        && client.credentials == run.credentials && client.logins == logins + run.attempted
        && err == run.error
      ensures err.None? ==> LoginsSoFar(client, step, start, logins, AllowedPrefix(organizations, i + 1, orgs))
      ensures err.None? ==> rv' == OrgResources(AllowedPrefix(organizations, i + 1, orgs), parent)
    {
      var org := organizations[i];
      ghost var done := AllowedPrefix(organizations, i, orgs);
      if org.id !in orgs && |orgs| > 0 {
        return rv, None;
      }
      LoginRunStep(step, start, done, org);
      err := client.Login(org.id);
      ghost var run := LoginRun(step, start, done + [org]);
      assert logins + run.attempted == logins + LoginRun(step, start, done).attempted + [org.id];
      OrgResourcesAppend(done, org, parent);
      rv' := rv + [OrganizationResource(org, parent)];
    }

    /**
     * `Entitlements`: on the first page only, the membership entitlement;
     * then one entitlement per role profile of the token's page, and the next
     * offset as the next token.
     */
    method Entitlements(resource: Resource, token: Option<Token>) returns (page: Page<Entitlement>, err: Option<Error>)
      ensures PageNumber(bags, token).Err? ==>
        page == Page([], "") && err == Some(PageNumber(bags, token).error)
      ensures PageNumber(bags, token).Ok? ==>
        var start := PageNumber(bags, token).value;
        var reply := client.RoleProfilesReply(PaginationParams(ResourcesPageSize, start));
        && (reply.Err? ==> page == Page([], "") && err == Some(Wrapped(OrgRolesContext, reply.error)))
        && (reply.Ok? ==>
              var lead := if FirstPage(token) then 1 else 0;
              && err == None
              && |page.items| == lead + |reply.value|
              && (FirstPage(token) ==> page.items[0] == MemberEntitlement(resource))
              && (forall i :: 0 <= i < |reply.value| ==> page.items[lead + i] == OrgRoleEntitlement(resource, reply.value[i]))
              && page.nextToken == Itoa(WrapAdd(start, ResourcesPageSize)))
    {
      var rv: seq<Entitlement> := [];
      if FirstPage(token) {
        rv := [MemberEntitlement(resource)];
      }
      var lead := |rv|;
      var start, pageErr := HandlePageToken(bags, token);
      if pageErr.Some? {
        return Page([], ""), pageErr;
      }
      var roles, next, rolesErr := client.GetUserRoleProfiles(PaginationParams(ResourcesPageSize, start));
      if rolesErr.Some? {
        return Page([], ""), Some(Wrapped(OrgRolesContext, rolesErr.value));
      }
      for i := 0 to |roles|
        invariant |rv| == lead + i
        invariant FirstPage(token) ==> rv[0] == MemberEntitlement(resource)
        invariant forall j :: 0 <= j < i ==> rv[lead + j] == OrgRoleEntitlement(resource, roles[j])
      {
        rv := rv + [OrgRoleEntitlement(resource, roles[i])];
      }
      return Page(rv, Itoa(next)), None;
    }

    /**
     * `Grants`: one page of 50 users from the token's offset; each user's
     * role profile is looked up, and the first failed lookup is returned
     * as is.
     */
    method Grants(resource: Resource, token: Option<Token>) returns (page: Page<Grant>, err: Option<Error>)
      ensures PageNumber(bags, token).Err? ==>
        page == Page([], "") && err == Some(PageNumber(bags, token).error)
      ensures PageNumber(bags, token).Ok? ==>
        var start := PageNumber(bags, token).value;
        var reply := client.UsersReply(PaginationParams(ResourcesPageSize, start));
        && (reply.Err? ==> page == Page([], "") && err == Some(Wrapped(OrgUsersContext, reply.error)))
        && (reply.Ok? ==>
              var grants := OrgGrants(ClientRoles(client), resource, reply.value);
              && (grants.Err? ==> page == Page([], "") && err == Some(grants.error))
              && (grants.Ok? ==>
                    && err == None && page.items == grants.value
                    && page.nextToken == Itoa(WrapAdd(start, ResourcesPageSize))))
    {
      var start, pageErr := HandlePageToken(bags, token);
      if pageErr.Some? {
        return Page([], ""), pageErr;
      }
      var users, next, usersErr := client.GetUsers(PaginationParams(ResourcesPageSize, start));
      if usersErr.Some? {
        return Page([], ""), Some(Wrapped(OrgUsersContext, usersErr.value));
      }
      var rv, grantsErr := UserGrants(resource, users);
      if grantsErr.Some? {
        return Page([], ""), grantsErr;
      }
      return Page(rv, Itoa(next)), None;
    }

    /**
     * The loop of `Grants`: each user's role profile is looked up in turn, and
     * the first failed lookup ends it.
     */
    method UserGrants(resource: Resource, users: seq<User>) returns (rv: seq<Grant>, err: Option<Error>)
      ensures var grants := OrgGrants(ClientRoles(client), resource, users);
        && (grants.Err? ==> err == Some(grants.error))
        && (grants.Ok? ==> err == None && rv == grants.value)
    {
      ghost var roles := ClientRoles(client);
      rv := [];
      for i := 0 to |users|
        invariant OrgGrants(roles, resource, users[..i]) == Ok(rv)
      {
        assert users[..i + 1] == users[..i] + [users[i]];
        OrgGrantsExtend(roles, resource, users[..i], users[i], rv);
        var role, roleErr := client.GetUserRoleProfile(users[i].roleId);
        assert roles(users[i].roleId) == client.RoleProfileReply(users[i].roleId);
        if roleErr.Some? {
          OrgGrantsPrefixFailure(roles, resource, users, i + 1);
          return [], roleErr;
        }
        var principal := UserResource(users[i], None).id;
        rv := rv + [Grant(resource.id, role.name, principal), Grant(resource.id, MemberSlug, principal)];
      }
      assert users[..|users|] == users;
      err := None;
    }
  }

  /** One more user: its role lookup's error, or its two grants appended. */
  lemma OrgGrantsExtend(roles: RoleLookup, resource: Resource, xs: seq<User>, u: User, gs: seq<Grant>)
    requires OrgGrants(roles, resource, xs) == Ok(gs)
    ensures roles(u.roleId).Err? ==> OrgGrants(roles, resource, xs + [u]) == Err(roles(u.roleId).error)
    ensures roles(u.roleId).Ok? ==>
      var principal := UserResource(u, None).id;
      OrgGrants(roles, resource, xs + [u])
        == Ok(gs + [Grant(resource.id, roles(u.roleId).value.name, principal), Grant(resource.id, MemberSlug, principal)])
  {
    assert (xs + [u])[..|xs|] == xs;
  }

  /** A failure among the first `k` users is the failure of all of them. */
  lemma OrgGrantsPrefixFailure(roles: RoleLookup, resource: Resource, users: seq<User>, k: nat)
    requires k <= |users| && OrgGrants(roles, resource, users[..k]).Err?
    ensures OrgGrants(roles, resource, users) == OrgGrants(roles, resource, users[..k])
  {
    OrgGrantsFailureSticks(roles, resource, users[..k], users[k..]);
    assert users[..k] + users[k..] == users;
  }

  /** After a failed role lookup, later users change nothing. */
  lemma {:induction false} OrgGrantsFailureSticks(roles: RoleLookup, resource: Resource, xs: seq<User>, ys: seq<User>)
    requires OrgGrants(roles, resource, xs).Err?
    ensures OrgGrants(roles, resource, xs + ys) == OrgGrants(roles, resource, xs)
    decreases |ys|
  {
    if |ys| == 0 {
      assert xs + ys == xs;
    } else {
      var ys' := ys[..|ys| - 1];
      assert (xs + ys)[..|xs + ys| - 1] == xs + ys';
      OrgGrantsFailureSticks(roles, resource, xs, ys');
    }
  }

  /**
   * `organizationBuilder`: the allow-list holds exactly the configured ids,
   * each mapped to an empty organization.
   */
  method OrganizationBuilder(client: Client, bags: BagCodec, organizationIds: seq<string>) returns (o: OrganizationResourceType)
    ensures fresh(o) && o.client == client && o.bags == bags
    ensures o.orgs.Keys == set id | id in organizationIds
    ensures forall id :: id in o.orgs ==> o.orgs[id] == EmptyOrganization
  {
    var orgsMap: map<string, Organization> := map[];
    for i := 0 to |organizationIds|
      invariant orgsMap.Keys == set id | id in organizationIds[..i]
      invariant forall id :: id in orgsMap ==> orgsMap[id] == EmptyOrganization
    {
      assert organizationIds[..i + 1] == organizationIds[..i] + [organizationIds[i]];
      orgsMap := orgsMap[organizationIds[i] := EmptyOrganization];
    }
    assert organizationIds[..|organizationIds|] == organizationIds;
    o := new OrganizationResourceType(client, bags, orgsMap);
  }
}
