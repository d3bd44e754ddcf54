/**
 * Identity extraction from the `Authorization` header (`extractSubFromToken`).
 *
 * The token is handed to the JWT parser with no signature check; the parser
 * itself is a parameter of the model (`ClaimsDecoder`), since base64 and JSON
 * decoding of the token belong to the JWT library. The header is the value
 * Go's `Header.Get` returns, so an absent header is the empty string. A Go
 * string is a sequence of bytes, and `len` and slicing count bytes, so the
 * header is modelled as bytes rather than characters.
 */
module Auth {
  import opened Wrappers

  /** One byte of a Go string. */
  type Byte = b: int | 0 <= b < 0x100

  /** A JSON value held by a JWT claim. */
  datatype Claim = Text(value: string) | Number(n: int) | Flag(b: bool) | Null

  /**
   * The unverified JWT parser: the claim set of a token, or `None` when the
   * token is structurally invalid.
   */
  type ClaimsDecoder = seq<Byte> -> Option<map<string, Claim>>

  datatype AuthError = MissingHeader | ParseError | MissingSub

  /** Go runtime panics the extraction can raise. */
  datatype PanicCause = HeaderTooShort | SubNotString

  datatype Extraction = Identity(sub: string) | Failed(error: AuthError) | Panicked(cause: PanicCause)

  /** The ASCII bytes of `"Bearer "`. */
  const BearerPrefix: seq<Byte> := [0x42, 0x65, 0x61, 0x72, 0x65, 0x72, 0x20]

  /** `len("Bearer ")`: the number of header bytes dropped before the token. */
  const SchemeLength: nat := |BearerPrefix|

  const SubClaim: string := "sub"

  /** The `sub` claim of a decoded claim set, when it is present and a string. */
  function SubjectOf(claims: Option<map<string, Claim>>): Option<string> {
    if claims.Some? && SubClaim in claims.value && claims.value[SubClaim].Text?
    then Some(claims.value[SubClaim].value) else None
  }

  /**
   * `extractSubFromToken`: rejects an empty header, drops the first seven
   * bytes without looking at them, decodes the rest unverified and
   * returns the `sub` claim unchanged.
   */
  function ExtractSub(header: seq<Byte>, decode: ClaimsDecoder): (r: Extraction)
    ensures r == Failed(MissingHeader) <==> header == []
    ensures r == Panicked(HeaderTooShort) <==> 0 < |header| < SchemeLength
    ensures r.Identity? <==>
      |header| >= SchemeLength && SubjectOf(decode(header[SchemeLength..])).Some?
    ensures r.Identity? ==> Some(r.sub) == SubjectOf(decode(header[SchemeLength..]))
  {
    if header == [] then Failed(MissingHeader)
    else if |header| < SchemeLength then Panicked(HeaderTooShort)
    else
      match decode(header[SchemeLength..])
      case None => Failed(ParseError)
      case Some(claims) =>
        if SubClaim !in claims then Failed(MissingSub)
        else if claims[SubClaim].Text? then Identity(claims[SubClaim].value)
        else Panicked(SubNotString)
  }

  /** The header a well-behaved client sends. */
  function BearerHeader(token: seq<Byte>): seq<Byte> {
    BearerPrefix + token
  }

  /** A bearer header whose token carries a string `sub` yields exactly that `sub`. */
  lemma BearerIdentity(token: seq<Byte>, decode: ClaimsDecoder, sub: string)
    requires decode(token).Some? && SubClaim in decode(token).value
    requires decode(token).value[SubClaim] == Text(sub)
    ensures ExtractSub(BearerHeader(token), decode) == Identity(sub)
  {
    assert BearerHeader(token)[SchemeLength..] == token;
  }

  /** The seven dropped bytes are never inspected: any 7-byte prefix acts as "Bearer ". */
  lemma SchemeNotChecked(prefix: seq<Byte>, token: seq<Byte>, decode: ClaimsDecoder)
    requires |prefix| == SchemeLength
    ensures ExtractSub(prefix + token, decode) == ExtractSub(BearerHeader(token), decode)
  {
    assert (prefix + token)[SchemeLength..] == token;
    assert BearerHeader(token)[SchemeLength..] == token;
  }

  /** A structurally invalid token is rejected. */
  lemma InvalidTokenRejected(token: seq<Byte>, decode: ClaimsDecoder)
    requires decode(token).None?
    ensures ExtractSub(BearerHeader(token), decode) == Failed(ParseError)
  {
    assert BearerHeader(token)[SchemeLength..] == token;
  }

  /** A token whose claims lack `sub` is rejected. */
  lemma MissingSubRejected(token: seq<Byte>, decode: ClaimsDecoder)
    requires decode(token).Some? && SubClaim !in decode(token).value
    ensures ExtractSub(BearerHeader(token), decode) == Failed(MissingSub)
  {
    assert BearerHeader(token)[SchemeLength..] == token;
  }

  /** A `sub` claim that is not a string makes the type assertion panic. */
  lemma NonStringSubPanics(token: seq<Byte>, decode: ClaimsDecoder)
    requires decode(token).Some? && SubClaim in decode(token).value
    requires !decode(token).value[SubClaim].Text?
    ensures ExtractSub(BearerHeader(token), decode) == Panicked(SubNotString)
  {
    assert BearerHeader(token)[SchemeLength..] == token;
  }
}
