/**
 * Page-token handling of pkg/connector/helpers.go.
 *
 * The SDK's `pagination.Bag` holds a stack of page states and a current one.
 * Its serialized form is not modelled: `BagCodec.unmarshal` gives the state a
 * token string decodes to, or says it does not decode.
 */
module PageTokens {
  import opened Wrappers
  import opened Decimal
  import opened Errors
  import opened Resources

  /** The page size every paged adapter call asks for. */
  const ResourcesPageSize: Int64 := 50

  datatype PageState = PageState(token: string, resourceTypeId: string, resourceId: string)

  datatype BagState = BagState(states: seq<PageState>, current: Option<PageState>)

  /** `Bag.Unmarshal`'s decoding of a token string. */
  datatype BagCodec = BagCodec(unmarshal: string -> Option<BagState>)

  /** `pagination.Token`, as the sync engine hands it to an adapter. */
  datatype Token = Token(size: int, token: string)

  /** `pagination.Bag`. */
  class Bag {
    var states: seq<PageState>
    var current: Option<PageState>

    constructor ()
      ensures states == [] && current == None
    {
      states := [];
      current := None;
    }

    method Unmarshal(codec: BagCodec, input: string) returns (err: Option<Error>)
      modifies this
      ensures codec.unmarshal(input).None? ==>
        err == Some(TokenCorrupt) && states == old(states) && current == old(current)
      ensures codec.unmarshal(input).Some? ==>
        err == None && BagState(states, current) == codec.unmarshal(input).value
    {
      match codec.unmarshal(input)
      case None =>
        err := Some(TokenCorrupt);
      case Some(decoded) =>
        states, current := decoded.states, decoded.current;
        err := None;
    }

    function Current(): Option<PageState>
      reads this
    {
      current
    }

    /** Makes `s` current, saving the former current state on the stack. */
    method Push(s: PageState)
      modifies this
      ensures current == Some(s)
      ensures states == if old(current).Some? then old(states) + [old(current).value] else old(states)
    {
      if current.Some? {
        states := states + [current.value];
      }
      current := Some(s);
    }

    /** The current state's token, "" when there is none. */
    function PageToken(): string
      reads this
    {
      if current.Some? then current.value.token else ""
    }
  }

  /** The state `parsePageToken` leaves in the bag after a successful unmarshal. */
  function ParsedState(decoded: BagState, resourceId: ResourceId): (s: BagState)
    ensures s.states == decoded.states
    ensures decoded.current.Some? ==> s.current == decoded.current
    ensures decoded.current.None? ==>
      s.current == Some(PageState("", resourceId.resourceType, resourceId.resource))
  {
    if decoded.current.Some? then decoded
    else BagState(decoded.states, Some(PageState("", resourceId.resourceType, resourceId.resource)))
  }

  /**
   * `parsePageToken`: a fresh bag unmarshalled from `input`; when it has no
   * current state, exactly one state for `resourceId` is pushed.
   */
  method ParsePageToken(codec: BagCodec, input: string, resourceId: ResourceId) returns (bag: Bag?, err: Option<Error>)
    ensures codec.unmarshal(input).None? ==> bag == null && err == Some(TokenCorrupt)
    ensures codec.unmarshal(input).Some? ==>
      && err == None && bag != null && fresh(bag)
      && BagState(bag.states, bag.current) == ParsedState(codec.unmarshal(input).value, resourceId)
  {
    var b := new Bag();
    var unmarshalErr := b.Unmarshal(codec, input);
    if unmarshalErr.Some? {
      return null, unmarshalErr;
    }
    if b.Current() == None {
      b.Push(PageState("", resourceId.resourceType, resourceId.resource));
    }
    return b, None;
  }

  /** The resource id `handlePageToken` parses every token for. */
  const PageTokenResource := ResourceId(UserType, "")

  /**
   * The page offset `handlePageToken` yields. A nil token is dereferenced (a
   * panic); a token that does not unmarshal is page 0 without error; the
   * bag's page token must then be a decimal integer.
   */
  function PageNumber(codec: BagCodec, token: Option<Token>): (r: Result<Int64, Error>)
    ensures r.Err? ==> r.error == NilTokenPanic || r.error.TokenSyntaxError?
    ensures r.Ok? ==> token.Some?
    ensures r.Ok? && codec.unmarshal(token.value.token).None? ==> r.value == 0
    ensures r.Ok? && codec.unmarshal(token.value.token).Some? ==>
      Atoi(ParsedState(codec.unmarshal(token.value.token).value, PageTokenResource).current.value.token) == Some(r.value)
  {
    match token
    case None => Err(NilTokenPanic)
    case Some(t) =>
      match codec.unmarshal(t.token)
      case None => Ok(0)
      case Some(decoded) =>
        var s := ParsedState(decoded, PageTokenResource).current.value.token;
        match Atoi(s)
        case None => Err(TokenSyntaxError(s))
        case Some(page) => Ok(page)
  }

  /** `handlePageToken`. */
  method HandlePageToken(codec: BagCodec, token: Option<Token>) returns (page: Int64, err: Option<Error>)
    ensures err == ErrorOf(PageNumber(codec, token))
    ensures page == ValueOr(PageNumber(codec, token), 0)
  {
    if token.None? {
      return 0, Some(NilTokenPanic);
    }
    var bag, parseErr := ParsePageToken(codec, token.value.token, PageTokenResource);
    if parseErr.Some? {
      return 0, None;
    }
    var parsed := Atoi(bag.PageToken());
    if parsed.None? {
      return 0, Some(TokenSyntaxError(bag.PageToken()));
    }
    return parsed.value, None;
  }

  /** An unmarshal failure is swallowed: it reads as the first page, not as an error. */
  lemma CorruptTokenIsFirstPage(codec: BagCodec, t: Token)
    requires codec.unmarshal(t.token).None?
    ensures PageNumber(codec, Some(t)) == Ok(0)
  {
  }

  /** A current page token that is not a decimal integer is an error. */
  lemma NonNumericTokenFails(codec: BagCodec, t: Token, decoded: BagState)
    requires codec.unmarshal(t.token) == Some(decoded)
    requires decoded.current.Some? && Atoi(decoded.current.value.token).None?
    ensures PageNumber(codec, Some(t)) == Err(TokenSyntaxError(decoded.current.value.token))
  {
  }

  /**
   * A bag whose current token is a string of decimal digits within 64 bits
   * reads as the page those digits spell, leading zeros and all.
   */
  lemma DigitTokenIsItsPage(codec: BagCodec, t: Token, decoded: BagState)
    requires codec.unmarshal(t.token) == Some(decoded)
    requires decoded.current.Some?
    requires var s := decoded.current.value.token; |s| > 0 && AllDigits(s) && DigitsValue(s) <= MaxInt64
    ensures PageNumber(codec, Some(t)) == Ok(DigitsValue(decoded.current.value.token))
  {
    AtoiValue(decoded.current.value.token);
  }

  /** A bag whose current token is the decimal form of `n` yields page `n`. */
  lemma DecimalTokenIsItsPage(codec: BagCodec, t: Token, decoded: BagState, n: Int64)
    requires codec.unmarshal(t.token) == Some(decoded)
    requires decoded.current.Some? && decoded.current.value.token == Itoa(n)
    ensures PageNumber(codec, Some(t)) == Ok(n)
  {
    AtoiItoa(n);
  }

  /**
   * A token that unmarshals to a bag with no current state gets a pushed state
   * whose token is empty, and `strconv.Atoi("")` fails: such a token is an
   * error, not page 0.
   */
  lemma NoCurrentStateFails(codec: BagCodec, t: Token, decoded: BagState)
    requires codec.unmarshal(t.token) == Some(decoded)
    requires decoded.current.None?
    ensures PageNumber(codec, Some(t)) == Err(TokenSyntaxError(""))
  {
    AtoiEmpty();
  }

  /** A nil token never yields a page. */
  lemma NilTokenPanics(codec: BagCodec)
    ensures PageNumber(codec, None) == Err(NilTokenPanic)
  {
  }
}
