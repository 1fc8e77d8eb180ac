/** The role resource type of pkg/connector/role.go: Bill.com user role profiles. */
module RoleAdapter {
  import opened Wrappers
  import opened Decimal
  import opened Models
  import opened Errors
  import opened Resources
  import opened PageTokens
  import opened BillClient
  import opened UserAdapter

  const ListRolesContext := "bill-connector: failed to list user roles"
  const RolePermissionsContext := "bill-connector: failed to get user role permissions"
  const RoleUsersContext := "bill-connector: failed to get users"

  /**
   * `roleResource`: a role resource keyed by the role's id, shown by its
   * name, whose profile carries the role id and name.
   */
  function RoleResource(role: UserRoleProfile, parent: Option<ResourceId>): (r: Resource)
    ensures r.id == ResourceId(RoleType, role.id) && r.displayName == role.name && r.parent == parent
    ensures r.kind.RoleTrait? && r.kind.profile.Keys == {"role_id", "role_name"}
    ensures ProfileString(r.kind.profile, "role_name") == Some(role.name)
  {
    var profile := map["role_id" := StringValue(role.id), "role_name" := StringValue(role.name)];
    Resource(ResourceId(RoleType, role.id), role.name, parent, RoleTrait(profile), [])
  }

  /** The role id `Entitlements` and `Grants` read back is the one `roleResource` stored. */
  lemma RoleIdRoundTrip(role: UserRoleProfile, parent: Option<ResourceId>)
    ensures RoleIdOf(RoleResource(role, parent)) == Ok(role.id)
  {
    var r := RoleResource(role, parent);
    assert r.kind.profile["role_id"] == StringValue(role.id);
  }

  /** A permission entitlement of a role: no grantable-to restriction is set. */
  function PermissionEntitlement(resource: Resource, name: string): (e: Entitlement)
    ensures e.resource == resource.id && e.slug == name
    ensures e.purpose == Permission && e.grantableTo == []
  {
    Entitlement(resource.id, name, Permission, [])
  }

  /** The permissions among `names` that `perms` enables. */
  function EnabledAmong(perms: map<string, bool>, names: set<string>): (s: set<string>)
    ensures forall n :: n in s <==> n in names && n in perms && perms[n]
  {
    set n | n in names && n in perms && perms[n]
  }

  lemma EnabledAmongAdd(perms: map<string, bool>, names: set<string>, name: string)
    requires name in perms && name !in names
    ensures perms[name] ==> EnabledAmong(perms, names + {name}) == EnabledAmong(perms, names) + {name}
    ensures perms[name] ==> name !in EnabledAmong(perms, names)
    ensures !perms[name] ==> EnabledAmong(perms, names + {name}) == EnabledAmong(perms, names)
  {
  }

  /** The permissions a role has switched on. */
  function Enabled(perms: map<string, bool>): (s: set<string>)
    ensures forall n :: n in s <==> n in perms && perms[n]
  {
    EnabledAmong(perms, perms.Keys)
  }

  /** The slugs of `es`. */
  function Slugs(es: seq<Entitlement>): set<string> {
    set i | 0 <= i < |es| :: es[i].slug
  }

  /** The users of `users` whose role profile is `roleId`, in order. */
  function Holders(users: seq<User>, roleId: string): (r: seq<User>)
    ensures |r| <= |users|
    ensures forall u :: u in r <==> u in users && u.roleId == roleId
    decreases |users|
  {
    if |users| == 0 then []
    else
      var rest := Holders(users[..|users| - 1], roleId);
      var last := users[|users| - 1];
      assert users == users[..|users| - 1] + [last];
      if last.roleId == roleId then rest + [last] else rest
  }

  /** The holders of a concatenation are the holders of each part, in order. */
  lemma {:induction false} HoldersAppend(xs: seq<User>, ys: seq<User>, roleId: string)
    ensures Holders(xs + ys, roleId) == Holders(xs, roleId) + Holders(ys, roleId)
    decreases |ys|
  {
    if |ys| == 0 {
      assert xs + ys == xs;
    } else {
      var ys' := ys[..|ys| - 1];
      assert (xs + ys)[..|xs + ys| - 1] == xs + ys';
      HoldersAppend(xs, ys', roleId);
    }
  }

  /** One user is a holder, once, exactly when the user's role is `roleId`. */
  lemma HoldersSingleton(u: User, roleId: string)
    ensures Holders([u], roleId) == if u.roleId == roleId then [u] else []
  {
    assert [u][..0] == [];
  }

  /** Every holder hands the role's membership over to the user resource. */
  function MemberGrant(resource: Resource, u: User): (g: Grant)
    ensures g == Grant(resource.id, MemberSlug, ResourceId(UserType, u.id))
  {
    Grant(resource.id, MemberSlug, UserResource(u, None).id)
  }

  class RoleResourceType {
    const client: Client
    const bags: BagCodec

    /** `roleBuilder`. */
    constructor (client: Client, bags: BagCodec)
      ensures this.client == client && this.bags == bags
    {
      this.client := client;
      this.bags := bags;
    }

    /** `List`: one page of 50 role profiles, as children of the parent. */
    method List(parent: Option<ResourceId>, token: Option<Token>) returns (page: Page<Resource>, err: Option<Error>)
      ensures parent.None? ==> page == Page([], "") && err == None
      ensures parent.Some? && PageNumber(bags, token).Err? ==>
        page == Page([], "") && err == Some(PageNumber(bags, token).error)
      ensures parent.Some? && PageNumber(bags, token).Ok? ==>
        var start := PageNumber(bags, token).value;
        var reply := client.RoleProfilesReply(PaginationParams(ResourcesPageSize, start));
        && (reply.Err? ==> page == Page([], "") && err == Some(Wrapped(ListRolesContext, reply.error)))
        && (reply.Ok? ==>
              && err == None
              && |page.items| == |reply.value|
              && (forall i :: 0 <= i < |reply.value| ==> page.items[i] == RoleResource(reply.value[i], parent))
              && page.nextToken == Itoa(WrapAdd(start, ResourcesPageSize)))
    {
      if parent.None? {
        return Page([], ""), None;
      }
      var start, pageErr := HandlePageToken(bags, token);
      if pageErr.Some? {
        return Page([], ""), pageErr;
      }
      var roles, next, rolesErr := client.GetUserRoleProfiles(PaginationParams(ResourcesPageSize, start));
      if rolesErr.Some? {
        return Page([], ""), Some(Wrapped(ListRolesContext, rolesErr.value));
      }
      var rv: seq<Resource> := [];
      for i := 0 to |roles|
        invariant |rv| == i
        invariant forall j :: 0 <= j < i ==> rv[j] == RoleResource(roles[j], parent)
      {
        rv := rv + [RoleResource(roles[i], parent)];
      }
      return Page(rv, Itoa(next)), None;
    }

    /**
     * `Entitlements`: the membership entitlement, then one permission
     * entitlement per enabled permission of the role, each exactly once, in
     * map order. The token is ignored and there is no next page.
     */
    method Entitlements(resource: Resource, token: Option<Token>) returns (page: Page<Entitlement>, err: Option<Error>)
      ensures RoleIdOf(resource).Err? ==> page == Page([], "") && err == Some(RoleIdOf(resource).error)
      ensures RoleIdOf(resource).Ok? ==>
        var reply := client.RolePermissionsReply(RoleIdOf(resource).value);
        && (reply.Err? ==> page == Page([], "") && err == Some(Wrapped(RolePermissionsContext, reply.error)))
        && (reply.Ok? ==>
              && err == None && page.nextToken == ""
              && |page.items| == 1 + |Enabled(reply.value)|
              && page.items[0] == MemberEntitlement(resource)
              && IsPermissionList(resource, page.items[1..], reply.value))
    {
      var roleId := RoleIdOf(resource);
      if roleId.Err? {
        return Page([], ""), Some(roleId.error);
      }
      var perms, permsErr := client.GetUserRolePermissions(roleId.value);
      if permsErr.Some? {
        return Page([], ""), Some(Wrapped(RolePermissionsContext, permsErr.value));
      }
      var rest := PermissionEntitlements(resource, perms);
      var rv := [MemberEntitlement(resource)] + rest;
      assert rv[1..] == rest;
      return Page(rv, ""), None;
    }

    /**
     * `Grants`: one page of 50 users from the token's offset, and a
     * membership grant for each of them whose role profile is this role.
     */
    method Grants(resource: Resource, token: Option<Token>) returns (page: Page<Grant>, err: Option<Error>)
      ensures PageNumber(bags, token).Err? ==>
        page == Page([], "") && err == Some(PageNumber(bags, token).error)
      ensures PageNumber(bags, token).Ok? && RoleIdOf(resource).Err? ==>
        page == Page([], "") && err == Some(RoleIdOf(resource).error)
      ensures PageNumber(bags, token).Ok? && RoleIdOf(resource).Ok? ==>
        var start := PageNumber(bags, token).value;
        var reply := client.UsersReply(PaginationParams(ResourcesPageSize, start));
        && (reply.Err? ==> page == Page([], "") && err == Some(Wrapped(RoleUsersContext, reply.error)))
        && (reply.Ok? ==>
              && err == None
              && IsMemberGrants(resource, page.items, Holders(reply.value, RoleIdOf(resource).value))
              && page.nextToken == Itoa(WrapAdd(start, ResourcesPageSize)))
    {
      var start, pageErr := HandlePageToken(bags, token);
      if pageErr.Some? {
        return Page([], ""), pageErr;
      }
      var roleId := RoleIdOf(resource);
      if roleId.Err? {
        return Page([], ""), Some(roleId.error);
      }
      var users, next, usersErr := client.GetUsers(PaginationParams(ResourcesPageSize, start));
      if usersErr.Some? {
        return Page([], ""), Some(Wrapped(RoleUsersContext, usersErr.value));
      }
      var rv := MemberGrants(resource, users, roleId.value);
      return Page(rv, Itoa(next)), None;
    }
  }

  /**
   * `es` are the permission entitlements of `resource` for exactly the
   * permissions among `names` that `perms` enables, one each.
   */
  ghost predicate PermissionsFor(resource: Resource, es: seq<Entitlement>, perms: map<string, bool>, names: set<string>) {
    && |es| == |EnabledAmong(perms, names)|
    && (forall i :: 0 <= i < |es| ==> es[i] == PermissionEntitlement(resource, es[i].slug))
    && Slugs(es) == EnabledAmong(perms, names)
  }

  /** `es` are the permission entitlements of `resource` for exactly the permissions `perms` enables, one each. */
  ghost predicate IsPermissionList(resource: Resource, es: seq<Entitlement>, perms: map<string, bool>) {
    PermissionsFor(resource, es, perms, perms.Keys)
  }

  /** One more permission looked at: appended when it is switched on. */
  lemma PermissionsForStep(resource: Resource, es: seq<Entitlement>, perms: map<string, bool>, names: set<string>, name: string)
    requires PermissionsFor(resource, es, perms, names)
    requires name in perms && name !in names
    ensures perms[name] ==> PermissionsFor(resource, es + [PermissionEntitlement(resource, name)], perms, names + {name})
    ensures !perms[name] ==> PermissionsFor(resource, es, perms, names + {name})
  {
    EnabledAmongAdd(perms, names, name);
    if perms[name] {
      SlugsAppend(es, PermissionEntitlement(resource, name));
    }
  }

  /**
   * A role whose permissions are `{"invoice.create": true, "invoice.delete": false}`
   * gets exactly one permission entitlement, for "invoice.create".
   */
  lemma PermissionScenario(resource: Resource, es: seq<Entitlement>)
    requires IsPermissionList(resource, es, map["invoice.create" := true, "invoice.delete" := false])
    ensures es == [PermissionEntitlement(resource, "invoice.create")]
  {
    var perms := map["invoice.create" := true, "invoice.delete" := false];
    assert "invoice.create"[8] != "invoice.delete"[8];
    assert EnabledAmong(perms, perms.Keys) == {"invoice.create"};
    assert es[0].slug in Slugs(es);
  }

  /** `gs` are the membership grants of `resource` to `holders`, in order. */
  ghost predicate IsMemberGrants(resource: Resource, gs: seq<Grant>, holders: seq<User>) {
    && |gs| == |holders|
    && forall i :: 0 <= i < |holders| ==> gs[i] == MemberGrant(resource, holders[i])
  }

  /**
   * The loop of `Entitlements` over the permission map: one permission
   * entitlement per enabled permission, in map order.
   */
  method PermissionEntitlements(resource: Resource, perms: map<string, bool>) returns (es: seq<Entitlement>)
    ensures IsPermissionList(resource, es, perms)
  {
    es := [];
    var remaining := perms.Keys;
    ghost var visited: set<string> := {};
    while remaining != {}
      invariant remaining <= perms.Keys && visited == perms.Keys - remaining
      invariant PermissionsFor(resource, es, perms, visited)
      decreases remaining
    {
      var name :| name in remaining;
      PermissionsForStep(resource, es, perms, visited, name);
      remaining := remaining - {name};
      visited := visited + {name};
      if perms[name] {
        es := es + [PermissionEntitlement(resource, name)];
      }
    }
    assert visited == perms.Keys;
  }

  /** The loop of `Grants`: a membership grant for each user holding `roleId`. */
  method MemberGrants(resource: Resource, users: seq<User>, roleId: string) returns (gs: seq<Grant>)
    ensures IsMemberGrants(resource, gs, Holders(users, roleId))
  {
    gs := [];
    for i := 0 to |users|
      invariant IsMemberGrants(resource, gs, Holders(users[..i], roleId))
    {
      assert users[..i + 1][..i] == users[..i];
      if users[i].roleId == roleId {
        gs := gs + [MemberGrant(resource, users[i])];
      }
    }
    assert users[..|users|] == users;
  }

  lemma SlugsAppend(es: seq<Entitlement>, e: Entitlement)
    ensures Slugs(es + [e]) == Slugs(es) + {e.slug}
  {
    var es' := es + [e];
    forall s | s in Slugs(es') ensures s in Slugs(es) + {e.slug} {
      var i :| 0 <= i < |es'| && es'[i].slug == s;
      if i < |es| { assert es[i].slug == s; }
    }
    assert es'[|es|].slug == e.slug;
    forall s | s in Slugs(es) ensures s in Slugs(es') {
      var i :| 0 <= i < |es| && es[i].slug == s;
      assert es'[i].slug == s;
    }
  }
}
