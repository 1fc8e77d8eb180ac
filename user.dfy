/** The user resource type of pkg/connector/user.go. */
module UserAdapter {
  import opened Wrappers
  import opened Decimal
  import opened Models
  import opened Errors
  import opened Resources
  import opened PageTokens
  import opened BillClient

  const ListUsersContext := "bill-connector: failed to list users"

  /**
   * `userResource`: a user resource keyed by the user's id, shown by the
   * user's name, whose profile carries the login and the user id.
   */
  function UserResource(u: User, parent: Option<ResourceId>): (r: Resource)
    ensures r.id == ResourceId(UserType, u.id) && r.displayName == u.name && r.parent == parent
    ensures r.kind.UserTrait? && r.kind.status == StatusUnspecified
    ensures r.kind.profile.Keys == {"login", "user_id"}
    ensures ProfileString(r.kind.profile, "login") == Some(u.name)
    ensures ProfileString(r.kind.profile, "user_id") == Some(u.id)
  {
    var profile := map["login" := StringValue(u.name), "user_id" := StringValue(u.id)];
    Resource(ResourceId(UserType, u.id), u.name, parent, UserTrait(profile, StatusUnspecified), [])
  }

  /** Two users map to the same resource id exactly when they have the same id. */
  lemma UserResourceIdInjective(u: User, v: User, p: Option<ResourceId>, q: Option<ResourceId>)
    ensures UserResource(u, p).id == UserResource(v, q).id <==> u.id == v.id
  {
  }

  class UserResourceType {
    const client: Client
    const bags: BagCodec

    /** `userBuilder`. */
    constructor (client: Client, bags: BagCodec)
      ensures this.client == client && this.bags == bags
    {
      this.client := client;
      this.bags := bags;
    }

    /**
     * `List`: without a parent, nothing. Otherwise one page of 50 users from
     * the offset the token names, each as a child of the parent, and the
     * next offset as the next token.
     */
    method List(parent: Option<ResourceId>, token: Option<Token>) returns (page: Page<Resource>, err: Option<Error>)
      ensures parent.None? ==> page == Page([], "") && err == None
      ensures parent.Some? && PageNumber(bags, token).Err? ==>
        page == Page([], "") && err == Some(PageNumber(bags, token).error)
      ensures parent.Some? && PageNumber(bags, token).Ok? ==>
        var start := PageNumber(bags, token).value;
        var reply := client.UsersReply(PaginationParams(ResourcesPageSize, start));
        && (reply.Err? ==> page == Page([], "") && err == Some(Wrapped(ListUsersContext, reply.error)))
        && (reply.Ok? ==>
              && err == None
              && |page.items| == |reply.value|
              && (forall i :: 0 <= i < |reply.value| ==> page.items[i] == UserResource(reply.value[i], parent))
              && page.nextToken == Itoa(WrapAdd(start, ResourcesPageSize)))
    {
      if parent.None? {
        return Page([], ""), None;
      }
      var start, pageErr := HandlePageToken(bags, token);
      if pageErr.Some? {
        return Page([], ""), pageErr;
      }
      var users, next, usersErr := client.GetUsers(PaginationParams(ResourcesPageSize, start));
      if usersErr.Some? {
        return Page([], ""), Some(Wrapped(ListUsersContext, usersErr.value));
      }
      var rv: seq<Resource> := [];
      for i := 0 to |users|
        invariant |rv| == i
        invariant forall j :: 0 <= j < i ==> rv[j] == UserResource(users[j], parent)
      {
        rv := rv + [UserResource(users[i], parent)];
      }
      return Page(rv, Itoa(next)), None;
    }

    /** `Entitlements`: users carry no entitlements. */
    method Entitlements(resource: Resource, token: Option<Token>) returns (page: Page<Entitlement>, err: Option<Error>)
      ensures page == Page([], "") && err == None
    {
      return Page([], ""), None;
    }

    /** `Grants`: grants are emitted from the organization and role side. */
    method Grants(resource: Resource, token: Option<Token>) returns (page: Page<Grant>, err: Option<Error>)
      ensures page == Page([], "") && err == None
    {
      return Page([], ""), None;
    }
  }
}
