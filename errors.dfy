/** The errors the client and the resource adapters return. */
module Errors {

  datatype Error =
    /** The HTTP round trip itself failed (network, cancelled context). */
    | TransportError
    /** The HTTP status was 300 or more; the gRPC status carries that code. */
    | HttpStatusError(code: int)
    /** The response body did not decode into the expected envelope. */
    | DecodeError
    /** `status.Error(400, "Request failed")`: a 2xx reply whose envelope reports failure. */
    | RequestFailed
    /** `pagination.Bag.Unmarshal` rejected the page token. */
    | TokenCorrupt
    /** `strconv.Atoi` rejected the bag's page token. */
    | TokenSyntaxError(token: string)
    /** A nil `*pagination.Token` dereferenced: a Go runtime panic. */
    | NilTokenPanic
    /** `rs.GetRoleTrait` found no role trait on the resource. */
    | MissingRoleTrait
    /** "bill-connector: failed to get role id from profile" */
    | MissingRoleId
    /** `fmt.Errorf("<context>: %w", cause)` */
    | Wrapped(context: string, cause: Error)
}
