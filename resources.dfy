/**
 * The generic resource graph the adapters emit, as plain records in place of
 * the SDK's constructors (`rs.NewResource`, `ent.NewAssignmentEntitlement`,
 * `ent.NewPermissionEntitlement`, `grant.NewGrant`), together with the three
 * resource types of pkg/connector/connector.go.
 */
module Resources {
  import opened Wrappers
  import opened Errors

  const OrganizationType := "organization"
  const UserType := "user"
  const RoleType := "role"

  /** The entitlement slug of membership, in organizations and roles alike. */
  const MemberSlug := "member"

  datatype ResourceId = ResourceId(resourceType: string, resource: string)

  /** A profile value: a string, or some other JSON value. */
  datatype ProfileValue = StringValue(s: string) | OtherValue

  type Profile = map<string, ProfileValue>

  datatype UserStatus = StatusUnspecified | StatusEnabled | StatusDisabled | StatusDeleted

  datatype Trait =
    | NoTrait
    | UserTrait(profile: Profile, status: UserStatus)
    | RoleTrait(profile: Profile)

  datatype Resource = Resource(
    id: ResourceId,
    displayName: string,
    parent: Option<ResourceId>,
    kind: Trait,
    childResourceTypes: seq<string>)

  datatype Purpose = Assignment | Permission

  /** An entitlement on `resource`; `grantableTo` lists resource type ids. */
  datatype Entitlement = Entitlement(
    resource: ResourceId,
    slug: string,
    purpose: Purpose,
    grantableTo: seq<string>)

  /** A grant of the entitlement `entitlement` of `resource` to `principal`. */
  datatype Grant = Grant(resource: ResourceId, entitlement: string, principal: ResourceId)

  /** What `List`, `Entitlements` and `Grants` return besides an error. */
  datatype Page<T> = Page(items: seq<T>, nextToken: string)

  /**
   * `NewAssignmentEntitlement(resource, "member")`, grantable to users: the
   * membership entitlement that organizations and roles both offer.
   */
  function MemberEntitlement(resource: Resource): (e: Entitlement)
    ensures e.resource == resource.id && e.slug == MemberSlug
    ensures e.purpose == Assignment && e.grantableTo == [UserType]
  {
    Entitlement(resource.id, MemberSlug, Assignment, [UserType])
  }

  /** `rs.GetRoleTrait`: the profile of the resource's role trait. */
  function GetRoleTrait(r: Resource): Result<Profile, Error> {
    if r.kind.RoleTrait? then Ok(r.kind.profile) else Err(MissingRoleTrait)
  }

  /** `rs.GetProfileStringValue`: the value under `key` when it is a string. */
  function ProfileString(p: Profile, key: string): Option<string> {
    if key in p && p[key].StringValue? then Some(p[key].s) else None
  }

  /**
   * The role id a role resource carries in its profile, as `Entitlements`
   * and `Grants` of the role adapter read it back.
   */
  function RoleIdOf(r: Resource): (id: Result<string, Error>)
    ensures id.Ok? <==> r.kind.RoleTrait? && ProfileString(r.kind.profile, "role_id").Some?
    ensures id.Ok? ==> id.value == r.kind.profile["role_id"].s
    ensures !r.kind.RoleTrait? ==> id == Err(MissingRoleTrait)
    ensures r.kind.RoleTrait? && id.Err? ==> id == Err(MissingRoleId)
  {
    match GetRoleTrait(r)
    case Err(e) => Err(e)
    case Ok(profile) =>
      match ProfileString(profile, "role_id")
      case None => Err(MissingRoleId)
      case Some(id) => Ok(id)
  }
}
