/**
 * The record shapes of the Bill.com API (pkg/bill/models.go) and the client's
 * credentials (pkg/bill/client.go), as values.
 */
module Models {
  import opened Decimal

  datatype LoginData = LoginData(sessionId: string, orgId: string)

  datatype SessionDetails = SessionDetails(orgId: string, userId: string)

  /** `RoleId` is the user's profile id: a foreign key into the role profiles. */
  datatype User = User(
    id: string,
    firstName: string,
    lastName: string,
    email: string,
    name: string,
    isActive: bool,
    roleId: string)

  datatype Organization = Organization(id: string, name: string)

  /** The Go zero value `Organization{}`. */
  const EmptyOrganization := Organization("", "")

  /** A user role profile ("role"); `kind` is the API's `type` field. */
  datatype UserRoleProfile = UserRoleProfile(
    id: string,
    name: string,
    kind: string,
    description: string)

  /** The Go zero value `UserRoleProfile{}`. */
  const EmptyRoleProfile := UserRoleProfile("", "", "", "")

  /** The response envelope shared by every endpoint. */
  datatype BaseResponse<T> = BaseResponse(status: int, message: string, data: T)

  datatype PaginationParams = PaginationParams(max: Int64, start: Int64)

  /** A search filter; its `interface{}` value is carried as its text. */
  datatype Filter = Filter(field: string, op: string, value: string)

  datatype Sort = Sort(field: string, asc: bool)

  /** Only `id` is ever written to a request; the other fields are never serialized. */
  datatype SearchParams = SearchParams(
    id: string,
    filters: seq<Filter>,
    sort: seq<Sort>,
    nested: bool,
    showAudit: bool)

  /** `SearchParams{Id: id}`. */
  function SearchById(id: string): SearchParams {
    SearchParams(id, [], [], false, false)
  }

  datatype Credentials = Credentials(
    username: string,
    password: string,
    organizationId: string,
    developerKey: string,
    sessionId: string)
}
