/**
 * The request options of pkg/bill/request_options.go. Each option writes
 * itself into a form-encoded request body (`url.Values`) with `Set`
 * semantics: one value per key, the last write wins.
 *
 * The nested `data` field is itself a form, stored in the body in its
 * encoded form. The `net/url` encoder and parser are not modelled: they are
 * the two arrows of a `FormCodec`.
 */
module RequestOptions {
  import opened Wrappers
  import opened Decimal
  import opened Models

  /** A `url.Values` in which every key holds exactly one value. */
  type Form = map<string, string>

  /** `url.Values.Encode` and `url.ParseQuery`; parsing may fail. */
  datatype FormCodec = FormCodec(encode: Form -> string, parse: string -> Option<Form>)

  /** What `net/url` guarantees: an encoded form parses back to itself. */
  ghost predicate Lawful(codec: FormCodec) {
    forall f :: codec.parse(codec.encode(f)) == Some(f)
  }

  /** A mutable `url.Values`, the body the options write into. */
  class FormValues {
    var entries: Form

    constructor (initial: Form)
      ensures entries == initial
    {
      entries := initial;
    }

    method Set(key: string, value: string)
      modifies this
      ensures entries == old(entries)[key := value]
    {
      entries := entries[key := value];
    }

    function Has(key: string): bool
      reads this
    {
      key in entries
    }

    /** `Get` yields "" for a missing key. */
    function Get(key: string): string
      reads this
    {
      if key in entries then entries[key] else ""
    }
  }

  datatype RequestOption =
    | CredentialsOption(credentials: Credentials)
    | PaginationOption(pagination: PaginationParams)
    | SearchOption(search: SearchParams)

  const CredentialKeys: set<string> := {"userName", "password", "orgId", "devKey", "sessionId"}

  /** The credential field that `Credentials.Apply` writes under `key`. */
  function CredentialValue(c: Credentials, key: string): string {
    if key == "userName" then c.username
    else if key == "password" then c.password
    else if key == "orgId" then c.organizationId
    else if key == "devKey" then c.developerKey
    else if key == "sessionId" then c.sessionId
    else ""
  }

  lemma CredentialKeysDistinct()
    ensures |CredentialKeys| == 5
    ensures "userName" != "password" && "userName" != "orgId" && "userName" != "devKey" && "userName" != "sessionId"
    ensures "password" != "orgId" && "password" != "devKey" && "password" != "sessionId"
    ensures "orgId" != "devKey" && "orgId" != "sessionId" && "devKey" != "sessionId"
  {
    assert "userName"[0] != "password"[0];
  }

  /** Go's `if value != "" { body.Set(key, value) }`. */
  function SetIfPresent(body: Form, key: string, value: string): Form {
    if value != "" then body[key := value] else body
  }

  /** What the credential keys hold after `Credentials.Apply`. */
  function CredentialsOutcome(body: Form, c: Credentials, k: string): Option<string> {
    if k in CredentialKeys && CredentialValue(c, k) != "" then Some(CredentialValue(c, k))
    else if k in body then Some(body[k])
    else None
  }

  function Lookup(body: Form, k: string): Option<string> {
    if k in body then Some(body[k]) else None
  }

  /**
   * The body after `Credentials.Apply`: each of the five credential keys whose
   * field is non-empty is set to that field, a key whose field is empty keeps
   * its previous value or stays absent, and no other key changes.
   */
  function WithCredentials(body: Form, c: Credentials): (r: Form)
    ensures forall k :: Lookup(r, k) == CredentialsOutcome(body, c, k)
  {
    var r := SetIfPresent(SetIfPresent(SetIfPresent(SetIfPresent(SetIfPresent(
      body, "userName", c.username), "password", c.password), "orgId", c.organizationId),
      "devKey", c.developerKey), "sessionId", c.sessionId);
    CredentialsApplied(body, c, r);
    r
  }

  lemma LookupSetIfPresent(body: Form, key: string, value: string, k: string)
    ensures Lookup(SetIfPresent(body, key, value), k) == if k == key && value != "" then Some(value) else Lookup(body, k)
  {
  }

  lemma CredentialsApplied(body: Form, c: Credentials, r: Form)
    requires r == SetIfPresent(SetIfPresent(SetIfPresent(SetIfPresent(SetIfPresent(
      body, "userName", c.username), "password", c.password), "orgId", c.organizationId),
      "devKey", c.developerKey), "sessionId", c.sessionId)
    ensures forall k :: Lookup(r, k) == CredentialsOutcome(body, c, k)
  {
    CredentialKeysDistinct();
    var r1 := SetIfPresent(body, "userName", c.username);
    var r2 := SetIfPresent(r1, "password", c.password);
    var r3 := SetIfPresent(r2, "orgId", c.organizationId);
    var r4 := SetIfPresent(r3, "devKey", c.developerKey);
    forall k ensures Lookup(r, k) == CredentialsOutcome(body, c, k) {
      LookupSetIfPresent(body, "userName", c.username, k);
      LookupSetIfPresent(r1, "password", c.password, k);
      LookupSetIfPresent(r2, "orgId", c.organizationId, k);
      LookupSetIfPresent(r3, "devKey", c.developerKey, k);
      LookupSetIfPresent(r4, "sessionId", c.sessionId, k);
    }
  }

  /** `Set`, not `Add`: applying the same credentials twice is applying them once. */
  lemma CredentialsIdempotent(body: Form, c: Credentials)
    ensures WithCredentials(WithCredentials(body, c), c) == WithCredentials(body, c)
  {
  }

  /** The nested form `PaginationParams.Apply` encodes: a key per non-zero field. */
  function PaginationForm(p: PaginationParams): (f: Form)
    ensures f.Keys <= {"max", "start"}
    ensures ("max" in f <==> p.max != 0) && ("max" in f ==> f["max"] == Itoa(p.max))
    ensures ("start" in f <==> p.start != 0) && ("start" in f ==> f["start"] == Itoa(p.start))
  {
    (if p.max != 0 then map["max" := Itoa(p.max)] else map[])
    + (if p.start != 0 then map["start" := Itoa(p.start)] else map[])
  }

  /** `PaginationParams{}` still writes `data`, as the encoding of the empty form. */
  lemma PaginationZero(body: Form, codec: FormCodec)
    ensures PaginationForm(PaginationParams(0, 0)) == map[]
    ensures WithPagination(codec, body, PaginationParams(0, 0))["data"] == codec.encode(map[])
  {
  }

  /** The body after `PaginationParams.Apply`: `data` is overwritten, every other key kept. */
  function WithPagination(codec: FormCodec, body: Form, p: PaginationParams): (r: Form)
    ensures r.Keys == body.Keys + {"data"}
    ensures r["data"] == codec.encode(PaginationForm(p))
    ensures forall k :: k in body && k != "data" ==> r[k] == body[k]
  {
    body["data" := codec.encode(PaginationForm(p))]
  }

  /**
   * The body after `SearchParams.Apply`. Only a non-empty `Id` is written: into
   * the existing `data` form when there is one (a `data` value that does not
   * parse leaves the body as it was), else into a fresh form holding only `id`.
   * Filters, sort, nested and showAudit are never written.
   */
  function WithSearch(codec: FormCodec, body: Form, s: SearchParams): (r: Form)
    ensures s.id == "" ==> r == body
    ensures "data" in body && codec.parse(body["data"]).None? ==> r == body
    ensures forall k :: k in body && k != "data" ==> k in r && r[k] == body[k]
    ensures r.Keys <= body.Keys + {"data"}
    ensures s.id != "" && "data" !in body ==> r == body["data" := codec.encode(map["id" := s.id])]
    ensures s.id != "" && "data" in body && codec.parse(body["data"]).Some? ==>
      r == body["data" := codec.encode(codec.parse(body["data"]).value["id" := s.id])]
  {
    if s.id == "" then body
    else if "data" in body then
      match codec.parse(body["data"])
      case None => body
      case Some(data) => body["data" := codec.encode(data["id" := s.id])]
    else body["data" := codec.encode(map["id" := s.id])]
  }

  /** What the search option writes depends on `Id` alone. */
  lemma SearchIgnoresFiltersAndSort(codec: FormCodec, body: Form, s: SearchParams)
    ensures WithSearch(codec, body, s) == WithSearch(codec, body, SearchById(s.id))
  {
  }

  /**
   * Pagination followed by search: the nested form keeps `max` and `start`
   * and gains `id`, so both travel in the one `data` field.
   */
  lemma PaginationThenSearch(codec: FormCodec, body: Form, p: PaginationParams, id: string)
    requires Lawful(codec)
    requires id != ""
    ensures var r := WithSearch(codec, WithPagination(codec, body, p), SearchById(id));
      codec.parse(r["data"]) == Some(PaginationForm(p)["id" := id])
  {
    var paged := WithPagination(codec, body, p);
    assert codec.parse(codec.encode(PaginationForm(p))) == Some(PaginationForm(p));
    var r := WithSearch(codec, paged, SearchById(id));
    assert r["data"] == codec.encode(PaginationForm(p)["id" := id]);
    assert codec.parse(codec.encode(PaginationForm(p)["id" := id])) == Some(PaginationForm(p)["id" := id]);
  }

  /** The body after one option's `Apply`. */
  function WithOption(codec: FormCodec, body: Form, o: RequestOption): Form {
    match o
    case CredentialsOption(c) => WithCredentials(body, c)
    case PaginationOption(p) => WithPagination(codec, body, p)
    case SearchOption(s) => WithSearch(codec, body, s)
  }

  /** The body after one argument of `doRequest`: a nil option is skipped. */
  function WithMaybeOption(codec: FormCodec, body: Form, o: Option<RequestOption>): Form {
    match o
    case None => body
    case Some(option) => WithOption(codec, body, option)
  }

  /** The body after applying `options` left to right. */
  function WithOptions(codec: FormCodec, body: Form, options: seq<Option<RequestOption>>): (r: Form)
    ensures (forall i :: 0 <= i < |options| ==> options[i].None?) ==> r == body
    decreases |options|
  {
    if options == [] then body
    else WithMaybeOption(codec, WithOptions(codec, body, options[..|options| - 1]), options[|options| - 1])
  }

  /** Applying `xs` and then `ys` is applying `xs + ys`. */
  lemma {:induction false} WithOptionsAppend(codec: FormCodec, body: Form, xs: seq<Option<RequestOption>>, ys: seq<Option<RequestOption>>)
    ensures WithOptions(codec, body, xs + ys) == WithOptions(codec, WithOptions(codec, body, xs), ys)
    decreases |ys|
  {
    if |ys| == 0 {
      assert xs + ys == xs;
    } else {
      var ys' := ys[..|ys| - 1];
      assert (xs + ys)[..|xs + ys| - 1] == xs + ys';
      WithOptionsAppend(codec, body, xs, ys');
    }
  }

  /** The three-argument calls the client makes, unfolded. */
  lemma WithThreeOptions(codec: FormCodec, body: Form, a: Option<RequestOption>, b: Option<RequestOption>, c: Option<RequestOption>)
    ensures WithOptions(codec, body, [a, b, c])
      == WithMaybeOption(codec, WithMaybeOption(codec, WithMaybeOption(codec, body, a), b), c)
  {
    assert [a][..0] == [];
    assert WithOptions(codec, body, [a]) == WithMaybeOption(codec, body, a);
    assert [a, b][..1] == [a];
    assert WithOptions(codec, body, [a, b]) == WithMaybeOption(codec, WithOptions(codec, body, [a]), b);
    assert [a, b, c][..2] == [a, b];
  }

  /** `Credentials.Apply` (request_options.go; copied verbatim in client.go). */
  method ApplyCredentials(c: Credentials, body: FormValues)
    modifies body
    ensures body.entries == WithCredentials(old(body.entries), c)
  {
    if c.username != "" {
      body.Set("userName", c.username);
    }
    if c.password != "" {
      body.Set("password", c.password);
    }
    if c.organizationId != "" {
      body.Set("orgId", c.organizationId);
    }
    if c.developerKey != "" {
      body.Set("devKey", c.developerKey);
    }
    if c.sessionId != "" {
      body.Set("sessionId", c.sessionId);
    }
  }

  /** `PaginationParams.Apply`. */
  method ApplyPagination(codec: FormCodec, p: PaginationParams, body: FormValues)
    modifies body
    ensures body.entries == WithPagination(codec, old(body.entries), p)
  {
    var data := new FormValues(map[]);
    if p.max != 0 {
      data.Set("max", Itoa(p.max));
    }
    if p.start != 0 {
      data.Set("start", Itoa(p.start));
    }
    assert data.entries == PaginationForm(p);
    body.Set("data", codec.encode(data.entries));
  }

  /** `SearchParams.Apply`. */
  method ApplySearch(codec: FormCodec, s: SearchParams, body: FormValues)
    modifies body
    ensures body.entries == WithSearch(codec, old(body.entries), s)
  {
    if s.id != "" {
      if body.Has("data") {
        var parsed := codec.parse(body.Get("data"));
        if parsed.None? {
          return;
        }
        var data := new FormValues(parsed.value);
        data.Set("id", s.id);
        body.Set("data", codec.encode(data.entries));
      } else {
        var data := new FormValues(map[]);
        data.Set("id", s.id);
        body.Set("data", codec.encode(data.entries));
      }
    }
  }

  /** `RequestOption.Apply`, dispatched on the option's variant. */
  method ApplyOption(codec: FormCodec, o: RequestOption, body: FormValues)
    modifies body
    ensures body.entries == WithOption(codec, old(body.entries), o)
  {
    match o
    case CredentialsOption(c) => ApplyCredentials(c, body);
    case PaginationOption(p) => ApplyPagination(codec, p, body);
    case SearchOption(s) => ApplySearch(codec, s, body);
  }

  /**
   * The envelope check every client operation makes after a 2xx reply:
   * status 1 alone, or message "Error" alone, marks the envelope invalid, and
   * an envelope with neither marker is valid.
   */
  predicate IsInvalidResponse<T>(response: BaseResponse<T>): (invalid: bool)
    ensures response.status == 1 ==> invalid
    ensures response.message == "Error" ==> invalid
    ensures response.status != 1 && response.message != "Error" ==> !invalid
  {
    response.status == 1 || response.message == "Error"
  }
}
