/**
 * The Bill.com API client of pkg/bill/client.go.
 *
 * Every operation builds a form body from request options, POSTs it, checks
 * the HTTP status, decodes the JSON envelope and checks the envelope's own
 * status. The HTTP round trip and the JSON decoding are not modelled: the
 * client's `Transport` gives, for each endpoint, the reply (status code and
 * already-decoded envelope) to a request.
 */
module BillClient {
  import opened Wrappers
  import opened Decimal
  import opened Models
  import opened Errors
  import opened RequestOptions

  const BaseUrl := "https://api.bill.com/api/v2"
  const UsersUrl := BaseUrl + "/List/User.json"
  const OrganizationsUrl := BaseUrl + "/ListOrgs.json"
  const UserRoleProfileUrl := BaseUrl + "/Crud/Read/Profile.json"
  const UserRoleProfilesUrl := BaseUrl + "/List/Profile.json"

  /** A POST with content type application/x-www-form-urlencoded. */
  datatype Request = Request(url: string, body: Form)

  datatype Decoding<T> = Decoded(envelope: BaseResponse<T>) | Undecodable

  /** No response at all (transport failure), or a status code and the decoded body. */
  datatype HttpReply<T> = NoResponse | Response(statusCode: int, decoding: Decoding<T>)

  /**
   * The server as seen through `http.Client.Do` and `json.Decoder`, one arrow
   * per envelope type. `GetUserRolePermissions` has no request shape in this
   * model; it is answered from the credentials and role id alone.
   */
  datatype Transport = Transport(
    login: Request -> HttpReply<LoginData>,
    organizations: Request -> HttpReply<seq<Organization>>,
    sessionDetails: Request -> HttpReply<SessionDetails>,
    users: Request -> HttpReply<seq<User>>,
    roleProfiles: Request -> HttpReply<seq<UserRoleProfile>>,
    roleProfile: Request -> HttpReply<UserRoleProfile>,
    rolePermissions: (Credentials, string) -> Result<map<string, bool>, Error>)

  /**
   * The tail of `doRequest`: a transport failure, then an HTTP status of 300
   * or more (before any decoding), then a decoding failure.
   */
  function Receive<T>(reply: HttpReply<T>): (r: Result<BaseResponse<T>, Error>)
    ensures r.Ok? <==> reply.Response? && reply.statusCode < 300 && reply.decoding.Decoded?
    ensures r.Ok? ==> r.value == reply.decoding.envelope
    ensures reply.NoResponse? ==> r == Err(TransportError)
    ensures reply.Response? && reply.statusCode >= 300 ==> r == Err(HttpStatusError(reply.statusCode))
    ensures reply.Response? && reply.statusCode < 300 && reply.decoding.Undecodable? ==> r == Err(DecodeError)
  {
    match reply
    case NoResponse => Err(TransportError)
    case Response(code, decoding) =>
      if code >= 300 then Err(HttpStatusError(code))
      else match decoding
        case Undecodable => Err(DecodeError)
        case Decoded(envelope) => Ok(envelope)
  }

  /** The envelope check each operation makes after `doRequest` succeeds. */
  function Checked<T>(received: Result<BaseResponse<T>, Error>): (r: Result<T, Error>)
    ensures received.Err? ==> r == Err(received.error)
    ensures received.Ok? && IsInvalidResponse(received.value) ==> r == Err(RequestFailed)
    ensures received.Ok? && !IsInvalidResponse(received.value) ==> r == Ok(received.value.data)
  {
    match received
    case Err(e) => Err(e)
    case Ok(response) => if IsInvalidResponse(response) then Err(RequestFailed) else Ok(response.data)
  }

  /**
   * A 2xx reply whose envelope says status 1 or message "Error" fails the
   * operation, whatever its payload.
   */
  lemma InvalidEnvelopeFails<T>(code: int, envelope: BaseResponse<T>)
    requires code < 300
    requires envelope.status == 1 || envelope.message == "Error"
    ensures Checked(Receive(Response(code, Decoded(envelope)))) == Err(RequestFailed)
  {
  }

  /** A status of 300 or more is reported with its code; the body is never looked at. */
  lemma StatusCheckedBeforeDecoding<T>(code: int, d1: Decoding<T>, d2: Decoding<T>)
    requires code >= 300
    ensures Checked(Receive(Response(code, d1))) == Checked(Receive(Response(code, d2)))
    ensures Checked(Receive(Response(code, d1))) == Err(HttpStatusError(code))
  {
  }

  /** The options `Login` passes: the full credentials, with the new organization id. */
  function LoginOptions(c: Credentials, organizationId: string): seq<Option<RequestOption>> {
    [Some(CredentialsOption(c.(organizationId := organizationId))), None, None]
  }

  /** `GetOrganizations` copies only the developer key, username and password. */
  function OrganizationsOptions(c: Credentials): seq<Option<RequestOption>> {
    [Some(CredentialsOption(Credentials(c.username, c.password, "", c.developerKey, ""))), None, None]
  }

  /** The session-scoped calls copy only the developer key and session id. */
  function SessionCredentials(c: Credentials): Credentials {
    Credentials("", "", "", c.developerKey, c.sessionId)
  }

  function SessionDetailsOptions(c: Credentials): seq<Option<RequestOption>> {
    [Some(CredentialsOption(SessionCredentials(c))), None, None]
  }

  function PagedOptions(c: Credentials, p: PaginationParams): seq<Option<RequestOption>> {
    [Some(CredentialsOption(SessionCredentials(c))), Some(PaginationOption(p)), None]
  }

  function RoleProfileOptions(c: Credentials, roleId: string): seq<Option<RequestOption>> {
    [Some(CredentialsOption(SessionCredentials(c))), None, Some(SearchOption(SearchById(roleId)))]
  }

  /** The body `Login` sends: its options folded, as `LoginBodyFolds` shows. */
  function LoginBody(c: Credentials, organizationId: string): Form {
    WithCredentials(map[], c.(organizationId := organizationId))
  }

  lemma LoginBodyFolds(codec: FormCodec, c: Credentials, organizationId: string)
    ensures WithOptions(codec, map[], LoginOptions(c, organizationId)) == LoginBody(c, organizationId)
  {
    WithThreeOptions(codec, map[], Some(CredentialsOption(c.(organizationId := organizationId))), None, None);
  }

  /** The login body carries every non-empty credential, the new organization id among them. */
  lemma LoginBodyKeys(codec: FormCodec, c: Credentials, organizationId: string)
    ensures var b := WithOptions(codec, map[], LoginOptions(c, organizationId));
      && b.Keys <= CredentialKeys
      && (organizationId != "" ==> "orgId" in b && b["orgId"] == organizationId)
      && (organizationId == "" ==> "orgId" !in b)
      && (c.sessionId != "" ==> "sessionId" in b && b["sessionId"] == c.sessionId)
  {
    var b := WithOptions(codec, map[], LoginOptions(c, organizationId));
    var c' := c.(organizationId := organizationId);
    WithThreeOptions(codec, map[], Some(CredentialsOption(c')), None, None);
    forall k | k in b ensures k in CredentialKeys {
      assert Lookup(b, k) == CredentialsOutcome(map[], c', k);
    }
    assert Lookup(b, "orgId") == CredentialsOutcome(map[], c', "orgId");
    assert Lookup(b, "sessionId") == CredentialsOutcome(map[], c', "sessionId");
  }

  /** `GetOrganizations` never sends `orgId` or `sessionId`. */
  lemma OrganizationsBodyKeys(codec: FormCodec, c: Credentials)
    ensures var b := WithOptions(codec, map[], OrganizationsOptions(c));
      && b.Keys <= {"userName", "password", "devKey"}
      && ("userName" in b <==> c.username != "")
      && ("password" in b <==> c.password != "")
      && ("devKey" in b <==> c.developerKey != "")
  {
    var c' := Credentials(c.username, c.password, "", c.developerKey, "");
    var b := WithOptions(codec, map[], OrganizationsOptions(c));
    WithThreeOptions(codec, map[], Some(CredentialsOption(c')), None, None);
    forall k | k in b ensures k in {"userName", "password", "devKey"} {
      assert Lookup(b, k) == CredentialsOutcome(map[], c', k);
    }
    assert Lookup(b, "userName") == CredentialsOutcome(map[], c', "userName");
    assert Lookup(b, "password") == CredentialsOutcome(map[], c', "password");
    assert Lookup(b, "devKey") == CredentialsOutcome(map[], c', "devKey");
  }

  /** The credential part of every session-scoped body: `devKey` and `sessionId` only. */
  lemma SessionCredentialKeys(c: Credentials)
    ensures var b := WithCredentials(map[], SessionCredentials(c));
      && b.Keys <= {"devKey", "sessionId"}
      && ("devKey" in b <==> c.developerKey != "")
      && ("devKey" in b ==> b["devKey"] == c.developerKey)
      && ("sessionId" in b <==> c.sessionId != "")
      && ("sessionId" in b ==> b["sessionId"] == c.sessionId)
  {
    var s := SessionCredentials(c);
    var b := WithCredentials(map[], s);
    forall k | k in b ensures k in {"devKey", "sessionId"} {
      assert Lookup(b, k) == CredentialsOutcome(map[], s, k);
    }
    assert Lookup(b, "devKey") == CredentialsOutcome(map[], s, "devKey");
    assert Lookup(b, "sessionId") == CredentialsOutcome(map[], s, "sessionId");
  }

  /** `GetSessionDetails` sends the session credentials and nothing else. */
  lemma SessionDetailsBodyKeys(codec: FormCodec, c: Credentials)
    ensures WithOptions(codec, map[], SessionDetailsOptions(c)).Keys <= {"devKey", "sessionId"}
  {
    WithThreeOptions(codec, map[], Some(CredentialsOption(SessionCredentials(c))), None, None);
    SessionCredentialKeys(c);
  }

  /** `GetUsers` and `GetUserRoleProfiles` send the session credentials and the page as `data`. */
  lemma PagedBodyKeys(codec: FormCodec, c: Credentials, p: PaginationParams)
    ensures var b := WithOptions(codec, map[], PagedOptions(c, p));
      && b.Keys <= {"devKey", "sessionId", "data"}
      && ("devKey" in b <==> c.developerKey != "")
      && ("devKey" in b ==> b["devKey"] == c.developerKey)
      && ("sessionId" in b <==> c.sessionId != "")
      && ("sessionId" in b ==> b["sessionId"] == c.sessionId)
      && "data" in b && b["data"] == codec.encode(PaginationForm(p))
  {
    var b := WithOptions(codec, map[], PagedOptions(c, p));
    WithThreeOptions(codec, map[], Some(CredentialsOption(SessionCredentials(c))), Some(PaginationOption(p)), None);
    SessionCredentialKeys(c);
  }

  /**
   * `GetUserRoleProfile` sends `data` holding exactly `{id: roleId}`: no
   * pagination option precedes the search option. An empty role id sends no
   * `data` at all.
   */
  lemma RoleProfileBodyKeys(codec: FormCodec, c: Credentials, roleId: string)
    ensures var b := WithOptions(codec, map[], RoleProfileOptions(c, roleId));
      && b.Keys <= {"devKey", "sessionId", "data"}
      && (roleId != "" ==> "data" in b && b["data"] == codec.encode(map["id" := roleId]))
      && (roleId == "" ==> "data" !in b)
  {
    var credentialsOnly := WithCredentials(map[], SessionCredentials(c));
    var b := WithOptions(codec, map[], RoleProfileOptions(c, roleId));
    WithThreeOptions(codec, map[], Some(CredentialsOption(SessionCredentials(c))), None, Some(SearchOption(SearchById(roleId))));
    SessionCredentialKeys(c);
  }

  /** The outcome of a login request made with credentials `c`. */
  function LoginReply(transport: Transport, c: Credentials, organizationId: string): Result<LoginData, Error> {
    Checked(Receive(transport.login(Request(UsersUrl, LoginBody(c, organizationId)))))
  }

  /**
   * The credentials after `Login(organizationId)` from `c`, and its error.
   * The organization id is set before the request, so it sticks on failure;
   * on success the session id and organization id come from the reply.
   */
  function LoginStep(transport: Transport, c: Credentials, organizationId: string): (r: (Credentials, Option<Error>))
    ensures r.0.username == c.username && r.0.password == c.password
    ensures r.0.developerKey == c.developerKey
    ensures r.1 == ErrorOf(LoginReply(transport, c, organizationId))
    ensures r.1.Some? ==> r.0.organizationId == organizationId && r.0.sessionId == c.sessionId
    ensures r.1.None? ==>
      var data := LoginReply(transport, c, organizationId).value;
      r.0.sessionId == data.sessionId && r.0.organizationId == data.orgId
  {
    match LoginReply(transport, c, organizationId)
    case Err(e) => (c.(organizationId := organizationId), Some(e))
    case Ok(data) => (c.(sessionId := data.sessionId, organizationId := data.orgId), None)
  }

  /** The outcome of reading role profile `roleId` with credentials `c`. */
  function RoleProfileLookup(transport: Transport, codec: FormCodec, c: Credentials, roleId: string): Result<UserRoleProfile, Error> {
    Checked(Receive(transport.roleProfile(Request(UserRoleProfileUrl, WithOptions(codec, map[], RoleProfileOptions(c, roleId))))))
  }

  class Client {
    /** The HTTP client and the server behind it. */
    const transport: Transport
    /** The `net/url` form encoder and parser. */
    const codec: FormCodec
    var credentials: Credentials
    /** The organization ids `Login` was called with, in call order. */
    ghost var logins: seq<string>

    /** `NewClient`. */
    constructor (transport: Transport, codec: FormCodec, credentials: Credentials)
      ensures this.transport == transport && this.codec == codec
      ensures this.credentials == credentials && logins == []
    {
      this.transport := transport;
      this.codec := codec;
      this.credentials := credentials;
      logins := [];
    }

    /**
     * `doRequest`: applies the options in argument order, skipping nil ones,
     * to an empty body, sends the body and interprets the reply. `sent` is
     * the body that went out.
     */
    method DoRequest<T>(url: string, options: seq<Option<RequestOption>>, endpoint: Request -> HttpReply<T>)
      returns (sent: Form, response: Result<BaseResponse<T>, Error>)
      ensures sent == WithOptions(codec, map[], options)
      ensures response == Receive(endpoint(Request(url, sent)))
    {
      var body := new FormValues(map[]);
      for i := 0 to |options|
        invariant body.entries == WithOptions(codec, map[], options[..i])
      {
        assert options[..i + 1][..i] == options[..i];
        match options[i]
        case None =>
        case Some(option) => ApplyOption(codec, option, body);
      }
      assert options[..|options|] == options;
      sent := body.entries;
      var reply := endpoint(Request(url, sent));
      if reply.NoResponse? {
        return sent, Err(TransportError);
      }
      if reply.statusCode >= 300 {
        return sent, Err(HttpStatusError(reply.statusCode));
      }
      if reply.decoding.Undecodable? {
        return sent, Err(DecodeError);
      }
      response := Ok(reply.decoding.envelope);
    }

    /** `Login`: re-logs the client into `organizationId` through the users endpoint. */
    method Login(organizationId: string) returns (err: Option<Error>)
      modifies this
      ensures (credentials, err) == LoginStep(transport, old(credentials), organizationId)
      ensures logins == old(logins) + [organizationId]
    {
      logins := logins + [organizationId];
      credentials := credentials.(organizationId := organizationId);
      LoginBodyFolds(codec, old(credentials), organizationId);
      var _, response := DoRequest(UsersUrl, [Some(CredentialsOption(credentials)), None, None], transport.login);
      if response.Err? {
        return Some(response.error);
      }
      if IsInvalidResponse(response.value) {
        return Some(RequestFailed);
      }
      credentials := credentials.(sessionId := response.value.data.sessionId,
                                  organizationId := response.value.data.orgId);
      err := None;
    }

    function OrganizationsReply(): Result<seq<Organization>, Error>
      reads this
    {
      Checked(Receive(transport.organizations(Request(OrganizationsUrl, WithOptions(codec, map[], OrganizationsOptions(credentials))))))
    }

    /** `GetOrganizations`: needs no login; Bill.com does not page this list. */
    method GetOrganizations() returns (organizations: seq<Organization>, err: Option<Error>)
      ensures err == ErrorOf(OrganizationsReply())
      ensures organizations == ValueOr(OrganizationsReply(), [])
    {
      var _, response := DoRequest(OrganizationsUrl, OrganizationsOptions(credentials), transport.organizations);
      if response.Err? {
        return [], Some(response.error);
      }
      if IsInvalidResponse(response.value) {
        return [], Some(RequestFailed);
      }
      return response.value.data, None;
    }

    function SessionDetailsReply(): Result<SessionDetails, Error>
      reads this
    {
      Checked(Receive(transport.sessionDetails(Request(UsersUrl, WithOptions(codec, map[], SessionDetailsOptions(credentials))))))
    }

    /** `GetSessionDetails`. */
    method GetSessionDetails() returns (details: SessionDetails, err: Option<Error>)
      ensures err == ErrorOf(SessionDetailsReply())
      ensures details == ValueOr(SessionDetailsReply(), SessionDetails("", ""))
    {
      var _, response := DoRequest(UsersUrl, SessionDetailsOptions(credentials), transport.sessionDetails);
      if response.Err? {
        return SessionDetails("", ""), Some(response.error);
      }
      if IsInvalidResponse(response.value) {
        return SessionDetails("", ""), Some(RequestFailed);
      }
      return response.value.data, None;
    }

    function UsersReply(p: PaginationParams): Result<seq<User>, Error>
      reads this
    {
      Checked(Receive(transport.users(Request(UsersUrl, WithOptions(codec, map[], PagedOptions(credentials, p))))))
    }

    /**
     * `GetUsers`: one page of users and the next offset `Start + Max`, however
     * many users came back; `(nil, 0)` on error.
     */
    method GetUsers(p: PaginationParams) returns (users: seq<User>, next: Int64, err: Option<Error>)
      ensures err == ErrorOf(UsersReply(p))
      ensures users == ValueOr(UsersReply(p), [])
      ensures next == if err.None? then WrapAdd(p.start, p.max) else 0
    {
      var _, response := DoRequest(UsersUrl, PagedOptions(credentials, p), transport.users);
      if response.Err? {
        return [], 0, Some(response.error);
      }
      if IsInvalidResponse(response.value) {
        return [], 0, Some(RequestFailed);
      }
      return response.value.data, WrapAdd(p.start, p.max), None;
    }

    function RoleProfilesReply(p: PaginationParams): Result<seq<UserRoleProfile>, Error>
      reads this
    {
      Checked(Receive(transport.roleProfiles(Request(UserRoleProfilesUrl, WithOptions(codec, map[], PagedOptions(credentials, p))))))
    }

    /** `GetUserRoleProfiles`: the same page-advance contract as `GetUsers`. */
    method GetUserRoleProfiles(p: PaginationParams) returns (roles: seq<UserRoleProfile>, next: Int64, err: Option<Error>)
      ensures err == ErrorOf(RoleProfilesReply(p))
      ensures roles == ValueOr(RoleProfilesReply(p), [])
      ensures next == if err.None? then WrapAdd(p.start, p.max) else 0
    {
      var _, response := DoRequest(UserRoleProfilesUrl, PagedOptions(credentials, p), transport.roleProfiles);
      if response.Err? {
        return [], 0, Some(response.error);
      }
      if IsInvalidResponse(response.value) {
        return [], 0, Some(RequestFailed);
      }
      return response.value.data, WrapAdd(p.start, p.max), None;
    }

    function RoleProfileReply(roleId: string): Result<UserRoleProfile, Error>
      reads this
    {
      RoleProfileLookup(transport, codec, credentials, roleId)
    }

    /** `GetUserRoleProfile`: one role, searched by id. */
    method GetUserRoleProfile(roleId: string) returns (role: UserRoleProfile, err: Option<Error>)
      ensures err == ErrorOf(RoleProfileReply(roleId))
      ensures role == ValueOr(RoleProfileReply(roleId), EmptyRoleProfile)
    {
      var _, response := DoRequest(UserRoleProfileUrl, RoleProfileOptions(credentials, roleId), transport.roleProfile);
      if response.Err? {
        return EmptyRoleProfile, Some(response.error);
      }
      if IsInvalidResponse(response.value) {
        return EmptyRoleProfile, Some(RequestFailed);
      }
      return response.value.data, None;
    }

    function RolePermissionsReply(roleId: string): Result<map<string, bool>, Error>
      reads this
    {
      transport.rolePermissions(credentials, roleId)
    }

    /** `GetUserRolePermissions`, which `pkg/bill/client.go` does not define: answered by the transport. */
    method GetUserRolePermissions(roleId: string) returns (permissions: map<string, bool>, err: Option<Error>)
      ensures err == ErrorOf(RolePermissionsReply(roleId))
      ensures permissions == ValueOr(RolePermissionsReply(roleId), map[])
    {
      var reply := transport.rolePermissions(credentials, roleId);
      return ValueOr(reply, map[]), ErrorOf(reply);
    }
  }

  /**
   * Logging into "org-123" against a reply of status 0 with session "S1"
   * leaves the client in session "S1" of "org-123", without error.
   */
  lemma LoginScenario(transport: Transport, c: Credentials)
    requires transport.login(Request(UsersUrl, LoginBody(c, "org-123")))
      == Response(200, Decoded(BaseResponse(0, "", LoginData("S1", "org-123"))))
    ensures LoginStep(transport, c, "org-123") == (c.(sessionId := "S1", organizationId := "org-123"), None)
  {
  }
}
