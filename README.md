# Bill.com connector model

A Dafny model of the core of the Bill.com connector (`baton-bill`). The
connector reads a Bill.com account and reports it to a sync engine as a
resource graph. Resources are organizations, users and role profiles. Each
resource comes with its entitlements and its grants.

The model covers:

- **Request options** (`request_options.dfy`, module `RequestOptions`). These
  are the credentials, pagination and search options that write themselves
  into a form body. There is also `IsInvalidResponse`, the envelope condition
  `Status == 1 || Message == "Error"`. Go writes that condition out in each
  operation instead of calling it; the model calls this one predicate.
- **The API client** (`client.dfy`, module `BillClient`). This is a `Client`
  class that holds the credentials. `Login` updates the credentials in place.
  `DoRequest` applies the options, then checks the HTTP status and the
  decoding. Each operation then checks the envelope itself. `GetOrganizations`,
  `GetSessionDetails`, `GetUsers`, `GetUserRoleProfiles` and
  `GetUserRoleProfile` each build their own body. The server is a `Transport`
  value with one arrow per call, and that arrow gives the reply to a request.
  `Login`, `GetSessionDetails` and `GetUsers` post to the same endpoint
  through three arrows, one per envelope type.
- **Page tokens** (`page_tokens.dfy`, module `PageTokens`). This holds
  `ResourcesPageSize`, a `Bag` class, `ParsePageToken` and `HandlePageToken`.
  `Bag` models the bag's stack of page states and its current state.
- **The three resource adapters** (`org.dfy`, `role.dfy`, `user.dfy`). These
  are the resource builders, `List`, `Entitlements` and `Grants` of each
  resource type, and `OrganizationBuilder`.
- **Configuration validation** (`config.dfy`, module `Config`).
- **Support modules**:
  - `wrappers.dfy`: `Option` and `Result`;
  - `decimal.dfy`: Go's 64-bit `int`, `strconv.Itoa` and `strconv.Atoi`;
  - `models.dfy`: the API's record shapes, as values;
  - `errors.dfy`: the errors of the core;
  - `resources.dfy`: the SDK's resource, entitlement and grant records.

How the model is shaped:

- Code that changes state is a class, or a method with a loop:
  - Go's `url.Values` is the `FormValues` class; each option's `Apply` is a
    module-level method (`ApplyCredentials`, `ApplyPagination`,
    `ApplySearch`, dispatched by `ApplyOption`) that takes a `FormValues` and
    updates it in place;
  - the client is the `Client` class;
  - each adapter loop is a `for` or `while` loop with invariants.
- Each such method is proved against a function of its inputs, and the
  properties are proved about those functions:
  - `WithCredentials` for the credentials option;
  - `LoginStep` and `LoginRun` for logins;
  - `OrgGrants` for the organization's grants;
  - `IsPermissionList` for the role's permission entitlements;
  - `PageNumber` for page tokens.
- `OrganizationResourceType.List` logs the client into every allowed
  organization in turn. It stops at the first failed login and leaves the
  client as that login left it. The client's ghost field `logins` records
  the organization ids `Login` was called with. The contract of `List` says
  which ids were attempted and in what order.

Notes on the code as written:

- `handlePageToken` reads `token.Token` without checking for nil. A nil
  token is therefore a runtime panic, modelled as `Err(NilTokenPanic)`. The
  organization adapter's `Entitlements` checks for a nil token before calling
  it, but it then reaches `handlePageToken` anyway. So with a nil token it
  returns that error, not the membership entitlement.
- A token whose bag has no current state is an error, not the first page.
  `parsePageToken` pushes a state whose token is empty, and
  `strconv.Atoi("")` fails. That is a `TokenSyntaxError("")`, as
  `NoCurrentStateFails` states. Only a token that does not unmarshal at all
  reads as page 0. Whether the empty token string itself falls in the first
  case depends on the SDK's `Bag.Unmarshal`: if it decodes "" to a bag with no
  current state, then an empty token is an error too. That decoder is not
  part of this model, and `BagCodec` leaves its behaviour open.
- The next-page tokens the adapters emit are plain decimal strings
  (`strconv.Itoa`), not serialized bags. Whether they read back as a page
  depends on the bag decoder, which the model leaves abstract. A bag whose
  current token is `Itoa(n)` reads back as page `n` (`DecimalTokenIsItsPage`).
- `client.go` (lines 277-346) repeats the three `Apply` methods of
  `request_options.go` word for word. The model has one copy.
- `GetUserRolePermissions` is called by the role adapter but has no body in
  `pkg/bill/client.go`. Its answer comes from `Transport.rolePermissions`.
- `Login` and `GetSessionDetails` POST to the users endpoint
  (`/List/User.json`). The constants `LoginBaseURL` and `ApiSessionBaseURL`
  are declared in `client.go` but never used.

## Model

| member | source | states |
|---|---|---|
| Decimal.WrapAdd | pkg/bill/client.go:179 | `Start + Max` on Go's 64-bit int: equal to the true sum modulo 2^64, and the true sum itself when that fits |
| Decimal.Atoi | pkg/connector/helpers.go:37-40 | a parse succeeds only on a non-empty string of digits with at most one leading sign (the converse is `AtoiValue`) |
| Decimal.AtoiValue | pkg/connector/helpers.go:37-42 | a digit string, optionally after '+' or '-', parses to the value of its digits (negated after '-') when that fits in 64 bits, and fails when it does not |
| Decimal.Itoa | pkg/connector/org.go:124 | `strconv.Itoa`: a non-negative offset becomes a non-empty string of decimal digits, a negative one a '-' followed by digits |
| Decimal.AtoiItoa | pkg/connector/org.go:124 | every offset that `strconv.Itoa` writes into a next-page token parses back to the same offset |
| Decimal.AtoiEmpty | pkg/connector/helpers.go:37-40 | the empty page token is rejected by `strconv.Atoi` |
| Resources.MemberEntitlement | pkg/connector/role.go:91-101 | the membership entitlement, of roles and organizations alike (org.go:85-97), is an assignment of the resource with slug "member", grantable to users |
| Resources.RoleIdOf | pkg/connector/role.go:103-112 | the role id is found exactly when the resource has a role trait whose profile holds a string `role_id`; otherwise it is the missing-trait error or the missing-role-id error |
| RequestOptions.FormValues.constructor | pkg/bill/request_options.go:42 | a new body holds exactly the given entries |
| RequestOptions.FormValues.Set | pkg/bill/request_options.go:16 | `Set` replaces the single value of one key and changes no other key |
| RequestOptions.WithCredentials | pkg/bill/request_options.go:13-38 | after the credentials option, each of the five credential keys holds its field when the field is non-empty; otherwise the key keeps its old value or stays absent; every other key is untouched |
| RequestOptions.LookupSetIfPresent | pkg/bill/request_options.go:15-17 | a guarded `Set` changes only its own key, and only when the value is non-empty |
| RequestOptions.CredentialsApplied | pkg/bill/request_options.go:13-38 | the five guarded `Set`s in sequence give the per-key outcome that `WithCredentials` promises |
| RequestOptions.CredentialsIdempotent | pkg/bill/request_options.go:13-38 | applying the same credentials twice leaves the same body as applying them once |
| RequestOptions.PaginationForm | pkg/bill/request_options.go:41-53 | the nested pagination form has `max` exactly when Max is non-zero and `start` exactly when Start is non-zero, each the decimal form of its field, and no other key |
| RequestOptions.PaginationZero | pkg/bill/request_options.go:41-55 | zero pagination still writes `data`, as the encoding of the empty form |
| RequestOptions.WithPagination | pkg/bill/request_options.go:41-55 | the pagination option adds or overwrites `data` with the encoded pagination form and keeps every other key |
| RequestOptions.WithSearch | pkg/bill/request_options.go:60-81 | the search option does nothing without an id, or when the existing `data` does not parse; otherwise it sets `id` inside the existing `data` form, or inside a fresh form when there is none; other keys are kept |
| RequestOptions.SearchIgnoresFiltersAndSort | pkg/bill/request_options.go:60-81 | only the search id affects the body; filters, sort, nested and showAudit are never written |
| RequestOptions.PaginationThenSearch | pkg/bill/request_options.go:57-71 | pagination followed by a search leaves one `data` form that parses back to `max`, `start` and `id` together, given a codec whose parse inverts its encode |
| RequestOptions.WithOptions | pkg/bill/client.go:242-248 | the body after `doRequest` applies its options in order; options that are all nil leave the body as it was |
| RequestOptions.WithOptionsAppend | pkg/bill/client.go:244-248 | applying one list of options and then another is applying their concatenation |
| RequestOptions.WithThreeOptions | pkg/bill/client.go:244-248 | the three options of a client call are applied left to right, and nil ones are skipped |
| RequestOptions.ApplyCredentials | pkg/bill/request_options.go:13-38 | the body after `Credentials.Apply` is `WithCredentials` of the old body |
| RequestOptions.ApplyPagination | pkg/bill/request_options.go:41-55 | the body after `PaginationParams.Apply` is `WithPagination` of the old body |
| RequestOptions.ApplySearch | pkg/bill/request_options.go:60-81 | the body after `SearchParams.Apply` is `WithSearch` of the old body, including its early return on an unparsable `data` |
| RequestOptions.ApplyOption | pkg/bill/request_options.go:8-10 | dispatching `RequestOption.Apply` on the option's kind gives that option's body |
| RequestOptions.IsInvalidResponse | pkg/bill/request_options.go:83-85 | status 1 alone, or message "Error" alone, makes an envelope invalid; an envelope with neither is valid |
| BillClient.Receive | pkg/bill/client.go:257-272 | a reply is accepted exactly when there was a response with status below 300 that decoded, and then gives the envelope; otherwise a transport failure is `TransportError`, a status of 300 or more is `HttpStatusError` of that status, and a body below 300 that does not decode is `DecodeError` |
| BillClient.Checked | pkg/bill/client.go:121-125 | an accepted envelope yields its data unless it is invalid, which gives "Request failed"; earlier errors pass through |
| BillClient.InvalidEnvelopeFails | pkg/bill/client.go:88-90 | a 2xx reply whose envelope has status 1 or message "Error" fails whatever its data |
| BillClient.StatusCheckedBeforeDecoding | pkg/bill/client.go:264-272 | with a status of 300 or more the outcome is that status error, whatever the body would decode to |
| BillClient.LoginBodyFolds | pkg/bill/client.go:80-82 | the login body is the credentials option, with the new organization id, applied to an empty body |
| BillClient.LoginBodyKeys | pkg/bill/client.go:79-82 | the login body holds only credential keys; `orgId` is the new organization id when it is non-empty, and the session id travels too |
| BillClient.OrganizationsBodyKeys | pkg/bill/client.go:104-115 | listing organizations sends at most userName, password and devKey, each exactly when its credential is non-empty, and never `orgId` or `sessionId` |
| BillClient.SessionCredentialKeys | pkg/bill/client.go:163-166 | the session-scoped credentials write only `devKey` and `sessionId`, each exactly when non-empty and then with the client's value |
| BillClient.SessionDetailsBodyKeys | pkg/bill/client.go:132-142 | the session-details body holds at most `devKey` and `sessionId` |
| BillClient.PagedBodyKeys | pkg/bill/client.go:159-169 | the users and role-profiles bodies hold only `devKey`, `sessionId` and `data`: `devKey` and `sessionId` exactly when non-empty and with the client's values, and `data` always, as the encoded page |
| BillClient.RoleProfileBodyKeys | pkg/bill/client.go:213-223 | the role-profile body's `data` is exactly the encoded `{id: roleId}`, and there is no `data` when the role id is empty |
| BillClient.LoginStep | pkg/bill/client.go:76-97 | a login keeps username, password and developer key; its error is the error of the rejected reply (the `doRequest` error, or `RequestFailed` for an invalid envelope) and none otherwise; on failure it keeps the new organization id and the old session, on success it takes session id and organization id from the reply |
| BillClient.LoginScenario | pkg/bill/client.go:76-97 | logging into "org-123" against a status-0 reply with session "S1" leaves session "S1" of "org-123" and no error |
| BillClient.Client.constructor | pkg/bill/client.go:68-73 | a new client holds the given credentials and has made no logins |
| BillClient.Client.DoRequest | pkg/bill/client.go:236-275 | the body sent is the options applied in order to an empty body, and the outcome is `Receive` of the endpoint's reply to that request |
| BillClient.Client.Login | pkg/bill/client.go:76-97 | the new credentials and the error are `LoginStep` of the old credentials, and the organization id is recorded as attempted |
| BillClient.Client.GetOrganizations | pkg/bill/client.go:101-126 | the listed organizations or the error of the organizations reply; nil on error |
| BillClient.Client.GetSessionDetails | pkg/bill/client.go:129-153 | the session details or the error of the session reply; the zero value on error |
| BillClient.Client.GetUsers | pkg/bill/client.go:156-180 | the users or the error of the paged users reply; the next offset is Start + Max (with 64-bit wrap-around) on success and 0 on error |
| BillClient.Client.GetUserRoleProfiles | pkg/bill/client.go:183-207 | the role profiles or the error of the paged reply, with the same next-offset rule as users |
| BillClient.Client.GetUserRoleProfile | pkg/bill/client.go:210-234 | the role profile searched by id, or the error; the zero profile on error |
| BillClient.Client.GetUserRolePermissions | pkg/connector/role.go:115-118 | the permission map or the error of the permissions reply; an empty map on error |
| PageTokens.Bag.constructor | pkg/connector/helpers.go:15 | a new bag has no states and no current state |
| PageTokens.Bag.Unmarshal | pkg/connector/helpers.go:16-19 | a token that does not decode is an error and leaves the bag as it was; otherwise the bag holds the decoded state |
| PageTokens.Bag.Push | pkg/connector/helpers.go:21-26 | push makes the state current and saves the former current state, if any, on the stack |
| PageTokens.ParsedState | pkg/connector/helpers.go:21-26 | after parsing, the decoded stack is kept, and the current state is the decoded one or else a fresh state for the resource id with an empty token |
| PageTokens.ParsePageToken | pkg/connector/helpers.go:14-29 | a fresh bag in `ParsedState` when the token decodes; nil and the decode error otherwise |
| PageTokens.PageNumber | pkg/connector/helpers.go:31-43 | the page a token names: a nil token is the dereference failure; a token that does not unmarshal is page 0; otherwise the page is what the bag's current token parses to, and an unparsable one is a syntax error — no other error is possible |
| PageTokens.HandlePageToken | pkg/connector/helpers.go:31-43 | the page and the error are those of `PageNumber` of the token |
| PageTokens.CorruptTokenIsFirstPage | pkg/connector/helpers.go:32-35 | a token that does not unmarshal reads as page 0 with no error |
| PageTokens.NonNumericTokenFails | pkg/connector/helpers.go:37-40 | a current page token that is not a decimal integer is a syntax error |
| PageTokens.DecimalTokenIsItsPage | pkg/connector/helpers.go:37-42 | a bag whose current token is the decimal form of n reads as page n |
| PageTokens.DigitTokenIsItsPage | pkg/connector/helpers.go:37-42 | a bag whose current token is any digit string within 64 bits, leading zeros included, reads as the page its digits spell |
| PageTokens.NoCurrentStateFails | pkg/connector/helpers.go:21-40 | a bag with no current state gets an empty token pushed, which fails to parse: an error, not page 0 |
| PageTokens.NilTokenPanics | pkg/connector/helpers.go:31-32 | a nil token never yields a page |
| UserAdapter.UserResource | pkg/connector/user.go:25-49 | a user resource is keyed by the user id, named by the user's name, and has a profile of exactly `login` and `user_id` and unspecified status |
| UserAdapter.UserResourceIdInjective | pkg/connector/user.go:36-42 | two users get the same resource id exactly when they have the same id |
| UserAdapter.UserResourceType.constructor | pkg/connector/user.go:92-97 | the user adapter holds the given client |
| UserAdapter.UserResourceType.List | pkg/connector/user.go:51-82 | nothing without a parent; otherwise the token's error, the wrapped users error, or one user resource per user in order with the next offset as the next token |
| UserAdapter.UserResourceType.Entitlements | pkg/connector/user.go:84-86 | users have no entitlements |
| UserAdapter.UserResourceType.Grants | pkg/connector/user.go:88-90 | users have no grants |
| RoleAdapter.RoleResource | pkg/connector/role.go:29-52 | a role resource is keyed by the role id, named by the role name, and has a role profile of exactly `role_id` and `role_name` |
| RoleAdapter.RoleIdRoundTrip | pkg/connector/role.go:29-33 | the role id that `Entitlements` and `Grants` read back from a role resource is the id `roleResource` stored |
| RoleAdapter.PermissionEntitlement | pkg/connector/role.go:127-132 | a permission entitlement of the role is named by the permission and has no grantable-to restriction |
| RoleAdapter.EnabledAmong | pkg/connector/role.go:120-124 | a permission counts exactly when it is in the map and switched on |
| RoleAdapter.EnabledAmongAdd | pkg/connector/role.go:120-124 | looking at one more permission adds it exactly when it is switched on |
| RoleAdapter.Enabled | pkg/connector/role.go:120-124 | the enabled permissions are exactly the map's true-valued names |
| RoleAdapter.Holders | pkg/connector/role.go:165-169 | the users kept are exactly those whose role id is this role, no more of them than there are users |
| RoleAdapter.HoldersAppend | pkg/connector/role.go:165-169 | the holders of a concatenation are the holders of each part, in order: source order and duplicates are kept |
| RoleAdapter.HoldersSingleton | pkg/connector/role.go:167-169 | one user appears once among the holders exactly when the user's role id is this role |
| RoleAdapter.MemberGrant | pkg/connector/role.go:171-182 | a membership grant of the role to the user's resource id |
| RoleAdapter.RoleResourceType.constructor | pkg/connector/role.go:188-193 | the role adapter holds the given client |
| RoleAdapter.RoleResourceType.List | pkg/connector/role.go:54-85 | nothing without a parent; otherwise the token's error, the wrapped roles error, or one role resource per role profile in order with the next offset as the next token |
| RoleAdapter.RoleResourceType.Entitlements | pkg/connector/role.go:87-136 | a missing role trait or role id is an error, and so is a failed permissions call (wrapped); otherwise the membership entitlement comes first, then one permission entitlement for each enabled permission, each exactly once; there is no next page |
| RoleAdapter.RoleResourceType.Grants | pkg/connector/role.go:138-186 | the token's error, the role-id error, or the wrapped users error; otherwise one membership grant per user of the page holding this role, in order, and the next offset |
| RoleAdapter.PermissionScenario | pkg/connector/role.go:120-133 | permissions `{"invoice.create": true, "invoice.delete": false}` give exactly one permission entitlement, for "invoice.create" |
| RoleAdapter.PermissionsForStep | pkg/connector/role.go:120-133 | one more permission looked at keeps the list exact, with an entitlement appended when it is switched on |
| RoleAdapter.PermissionEntitlements | pkg/connector/role.go:120-133 | the loop over the permission map yields exactly the enabled permissions' entitlements, one each |
| RoleAdapter.MemberGrants | pkg/connector/role.go:164-183 | the loop over users yields the membership grants of exactly the holders of the role, in order |
| RoleAdapter.SlugsAppend | pkg/connector/role.go:127-132 | appending an entitlement adds its slug to the set of slugs |
| OrgAdapter.OrganizationResource | pkg/connector/org.go:30-46 | an organization resource is keyed by the organization id, named by its name, under the parent, with users as child resources |
| OrgAdapter.OrgResources | pkg/connector/org.go:67-74 | one organization resource per allowed organization, in order |
| OrgAdapter.OrgResourcesAppend | pkg/connector/org.go:74 | appending an organization appends its resource |
| OrgAdapter.AllowedPrefix | pkg/connector/org.go:56-59 | the organizations kept from a prefix are at most that many |
| OrgAdapter.Allowed | pkg/connector/org.go:56-59 | the organizations `List` keeps are no more than it lists |
| OrgAdapter.AllowedAppend | pkg/connector/org.go:56-59 | the organizations kept from a concatenation are those kept from each part, in order: source order and duplicates are kept |
| OrgAdapter.AllowedSingleton | pkg/connector/org.go:57-59 | one organization is kept, once, exactly when the allow-list is empty or contains its id |
| OrgAdapter.AllowedPrefixExtend | pkg/connector/org.go:56-59 | the organizations kept from the first n do not depend on those after them |
| OrgAdapter.AllowedPrefixAppend | pkg/connector/org.go:56-59 | filtering a concatenation past its first part continues with the filter of the second part |
| OrgAdapter.AllowedMembers | pkg/connector/org.go:56-59 | an organization is kept exactly when it is listed and either the allow-list is empty or it contains the organization's id |
| OrgAdapter.AllowedEverything | pkg/connector/org.go:57 | with an empty allow-list every organization is kept, in order |
| OrgAdapter.ClientStep | pkg/connector/org.go:62 | the step of the listing is the client's `Login` step |
| OrgAdapter.LoginRun | pkg/connector/org.go:56-65 | logging into organizations in order until one fails: no more ids are tried than there are organizations, and all of them when no login fails |
| OrgAdapter.LoginRunStep | pkg/connector/org.go:56-65 | after successful logins, logging into one more organization is one more `Login` step from the credentials so far |
| OrgAdapter.LoginRunSticky | pkg/connector/org.go:62-65 | after a failed login no later organization is tried and nothing more changes |
| OrgAdapter.LoginRunStops | pkg/connector/org.go:62-65 | the return on a failed login is the outcome of the whole listing |
| OrgAdapter.LoginRunAttempts | pkg/connector/org.go:56-65 | the ids tried are the first organizations' ids in order: all of them when no login fails, and at least one when a login fails |
| OrgAdapter.LoginRunFailure | pkg/connector/org.go:62-65 | when a login fails it is the last one tried: every earlier login succeeded, and the resulting credentials and error are those of that last login |
| OrgAdapter.OrgRoleEntitlement | pkg/connector/org.go:109-122 | a role profile becomes a permission entitlement of the organization named by the role, grantable to users |
| OrgAdapter.ClientRoles | pkg/connector/org.go:143 | the role lookup of the grants is the client's `GetUserRoleProfile` with its current credentials |
| OrgAdapter.OrgGrants | pkg/connector/org.go:141-167 | the grants of a page of users: two grants per user when they come out (the failure case is `OrgGrantsFirstError`) |
| OrgAdapter.OrgGrantsFirstError | pkg/connector/org.go:143-146 | a failure is the error of the first user whose role lookup fails: every earlier user's lookup succeeded |
| OrgAdapter.OrgGrantsExtend | pkg/connector/org.go:142-164 | one more user appends that user's role grant and membership grant, or ends with that user's lookup error |
| OrgAdapter.OrgGrantsPrefixFailure | pkg/connector/org.go:143-146 | a failure among the first users is the failure of the whole page |
| OrgAdapter.OrganizationResourceType.UserGrants | pkg/connector/org.go:141-167 | the loop over the page's users returns `OrgGrants`' grants, or its error |
| OrgAdapter.OrgGrantsFound | pkg/connector/org.go:141-167 | the grants come out exactly when every user's role lookup succeeds |
| OrgAdapter.OrgGrantsLayout | pkg/connector/org.go:141-167 | when the grants come out there are two per user in user order: the user's role name, then membership, both to the user's resource id |
| OrgAdapter.OrgGrantsFailureSticks | pkg/connector/org.go:143-146 | after a failed role lookup, later users change nothing |
| OrgAdapter.OrganizationResourceType.constructor | pkg/connector/org.go:179-183 | the organization adapter holds the given client and allow-list |
| OrgAdapter.OrganizationResourceType.List | pkg/connector/org.go:48-78 | the wrapped list error leaves the client untouched; otherwise the client is logged into each allowed organization in order until a login fails (wrapped error, client as that login left it), and on success every allowed organization's resource is returned in order with no next page |
| OrgAdapter.OrganizationResourceType.LoginEach | pkg/connector/org.go:55-75 | the loop of `List`: the client's credentials and attempted logins are those of the login run over the allowed organizations, its error is the run's, and without error the resources are those of the allowed organizations |
| OrgAdapter.OrganizationResourceType.Visit | pkg/connector/org.go:56-74 | one turn of the loop is one more step of the login run over the allowed prefix, collecting the organization's resource |
| OrgAdapter.OrganizationResourceType.Entitlements | pkg/connector/org.go:80-125 | the token's error or the wrapped roles error; otherwise the membership entitlement only on the first page, then one entitlement per role profile of the page in order, and the next offset |
| OrgAdapter.OrganizationResourceType.Grants | pkg/connector/org.go:127-170 | the token's error or the wrapped users error; otherwise the grants of `OrgGrants` over the page's users, or the first role-lookup error unwrapped, and the next offset |
| OrgAdapter.OrganizationBuilder | pkg/connector/org.go:172-184 | the allow-list holds exactly the configured ids, each with an empty organization |
| Config.ValidateConfig | cmd/baton-bill/config.go:22-40 | valid exactly when username, password, a non-empty organization list and developer key are all present; otherwise the message for the first missing one in that order |
| Config.NilAndEmptyOrganizationsAgree | cmd/baton-bill/config.go:31-33 | a nil and an empty organization list are rejected alike |
| Config.ErrorNamesMissingSetting | cmd/baton-bill/config.go:22-39 | every message names a setting that is really missing |

## Left out

- HTTP and JSON are not modelled: `http.NewRequestWithContext`, `http.Client.Do`, headers, closing the body, `json.Decoder`. They are the arrows of `Transport`, which give a status code and an already-decoded envelope, or no response. Cancellation through the context is one more transport failure.
- The `net/url` encoding is not modelled. `url.Values.Encode` and `url.ParseQuery` are the arrows of `FormCodec`. A body holds one value per key, because every write in the core is a `Set`. A `data` value that parses into several values for one key is not modelled.
- The serialized form of `pagination.Bag` is not modelled. Its `Unmarshal` is the `BagCodec` arrow. `Marshal` is never called by the core.
- Display names and descriptions of entitlements are left out: the `fmt.Sprintf` strings and `titleCaser`. Entitlements keep their resource, slug, purpose and grantable-to types.
- The SDK constructors (`rs.NewResource`, `rs.NewUserResource`, `rs.NewRoleResource`) are treated as infallible. Their error returns in the adapters are not modelled.
- `GetUserRolePermissions` has no request shape, because `pkg/bill/client.go` does not define it. Its result is taken from `Transport.rolePermissions`, given the credentials and the role id.
- Go's map iteration order is not modelled. `PermissionEntitlements` visits the permission map in an unspecified order. Its contract fixes the set of entitlements and their number, not their order.
- Not part of this model:
  - `pkg/connector/connector.go`, including `New`, `Metadata`, `Validate` and the resource type declarations, apart from their ids;
  - the `ResourceType` methods;
  - `cmdFlags` and `main`;
  - the SDK's local file manager.
- Logging, annotations and rate-limit data are not modelled. The adapters always return nil annotations.
- Concurrency is not modelled. The core is sequential, and one `Client` is used by one caller at a time.
- `ResourcesPageSize` is a package variable in Go. It is never reassigned, so the model makes it a constant.
