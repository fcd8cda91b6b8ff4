/** `JwtUtil`: tokens as claim records. Signing and compact serialisation are
    done by the jjwt library; the model sees them only through a `Codec`. */
module JwtUtil {
  import opened Common
  import opened UserDetailsService

  /** Default of `jwt.expiration.ms`: one hour. */
  const DEFAULT_EXPIRATION_MS: nat := 3600000

  /** The claim set of a token. Dates are NumericDate values, i.e. whole
      seconds since the epoch (section 2 of RFC 7519), as jjwt stores them. */
  datatype Claims = Claims(
    custom: map<string, string>,
    subject: Option<string>,
    issuedAt: Option<nat>,
    expiration: Option<nat>)

  /** jjwt with the application's HS512 key: `compact` signs and serialises,
      `parse` checks the signature and returns the claims (None for a malformed
      or wrongly signed token). */
  datatype Codec = Codec(compact: Claims -> string, parse: string -> Option<Claims>)

  /** What the library guarantees: a token it compacts parses back to its claims,
      and a compact token is never empty. */
  ghost predicate Faithful(codec: Codec) {
    forall c :: codec.parse(codec.compact(c)) == Some(c) && codec.compact(c) != ""
  }

  datatype JwtError = MalformedOrBadSignature | ExpiredJwt | NullPointer

  datatype Result<+T> = Ok(value: T) | Err(error: JwtError)

  /** The builder's claims: an empty custom map, then subject, issue time and
      expiration taken from one clock reading `nowMs`. */
  function TokenClaims(details: UserDetails, nowMs: nat, expirationMs: nat): (c: Claims)
    ensures c.custom == map[] && c.subject == Some(details.username)
    ensures c.issuedAt.Some? && c.issuedAt.value * 1000 <= nowMs < c.issuedAt.value * 1000 + 1000
    ensures c.expiration.Some?
    ensures c.expiration.value * 1000 <= nowMs + expirationMs < c.expiration.value * 1000 + 1000
  {
    Claims(map[], Some(details.username), Some(nowMs / 1000), Some((nowMs + expirationMs) / 1000))
  }

  /** `generateToken(userDetails)`. */
  function GenerateToken(codec: Codec, details: UserDetails, nowMs: nat, expirationMs: nat): (t: string)
    ensures Faithful(codec) ==> t != "" && codec.parse(t) == Some(TokenClaims(details, nowMs, expirationMs))
  {
    codec.compact(TokenClaims(details, nowMs, expirationMs))
  }

  /** jjwt's parser rejects a token whose expiration lies strictly before its clock. */
  predicate ExpiredAt(c: Claims, nowMs: nat) {
    c.expiration.Some? && c.expiration.value * 1000 < nowMs
  }

  /** `extractAllClaims(token)` (`parseClaimsJws(token).getBody()`) at clock `nowMs`. */
  function ExtractAllClaims(codec: Codec, token: string, nowMs: nat): (r: Result<Claims>)
    ensures r.Ok? <==> codec.parse(token).Some? && !ExpiredAt(codec.parse(token).value, nowMs)
    ensures r.Ok? ==> r.value == codec.parse(token).value
    ensures r.Err? && codec.parse(token).Some? ==> r.error == ExpiredJwt
  {
    match codec.parse(token)
    case None => Err(MalformedOrBadSignature)
    case Some(c) => if ExpiredAt(c, nowMs) then Err(ExpiredJwt) else Ok(c)
  }

  /** `extractUsername(token)`: the subject claim, possibly absent. */
  function ExtractUsername(codec: Codec, token: string, nowMs: nat): (r: Result<Option<string>>)
    ensures r.Ok? <==> codec.parse(token).Some? && !ExpiredAt(codec.parse(token).value, nowMs)
    ensures r.Ok? ==> r.value == codec.parse(token).value.subject
    ensures r.Err? ==> r.error == ExtractAllClaims(codec, token, nowMs).error
  {
    match ExtractAllClaims(codec, token, nowMs)
    case Err(e) => Err(e)
    case Ok(c) => Ok(c.subject)
  }

  /** `extractExpiration(token)` in milliseconds, possibly absent. */
  function ExtractExpiration(codec: Codec, token: string, nowMs: nat): (r: Result<Option<nat>>)
    ensures r.Ok? <==> codec.parse(token).Some? && !ExpiredAt(codec.parse(token).value, nowMs)
    ensures r.Ok? ==> (r.value.Some? <==> codec.parse(token).value.expiration.Some?)
    ensures r.Ok? && r.value.Some? ==> r.value.value == codec.parse(token).value.expiration.value * 1000
    ensures r.Err? ==> r.error == ExtractAllClaims(codec, token, nowMs).error
  {
    match ExtractAllClaims(codec, token, nowMs)
    case Err(e) => Err(e)
    case Ok(c) => Ok(match c.expiration case None => None case Some(s) => Some(s * 1000))
  }

  /** `isTokenExpired(token)`: the library parses at `parseMs`, then the
      expiration is compared with `new Date()`, read as `nowMs`. */
  function IsTokenExpired(codec: Codec, token: string, parseMs: nat, nowMs: nat): (r: Result<bool>)
    ensures var p := codec.parse(token);
      r.Ok? <==> p.Some? && !ExpiredAt(p.value, parseMs) && p.value.expiration.Some?
    ensures r.Ok? ==> r.value == (codec.parse(token).value.expiration.value * 1000 < nowMs)
    ensures r.Err? && ExtractAllClaims(codec, token, parseMs).Ok? ==> r.error == NullPointer
  {
    match ExtractExpiration(codec, token, parseMs)
    case Err(e) => Err(e)
    case Ok(None) => Err(NullPointer)
    case Ok(Some(expMs)) => Ok(expMs < nowMs)
  }

  /** `validateToken(token, userDetails)` with one clock reading for all its steps. */
  function ValidateToken(codec: Codec, token: string, details: UserDetails, nowMs: nat): (r: Result<bool>)
    ensures var p := codec.parse(token);
      r == Ok(false) <==> p.Some? && !ExpiredAt(p.value, nowMs)
                          && p.value.subject.Some? && p.value.subject.value != details.username
    ensures var p := codec.parse(token);
      r.Err? <==> p.None? || ExpiredAt(p.value, nowMs) || p.value.subject.None?
                  || (p.value.subject == Some(details.username) && p.value.expiration.None?)
  {
    match ExtractUsername(codec, token, nowMs)
    case Err(e) => Err(e)
    case Ok(None) => Err(NullPointer)
    case Ok(Some(name)) =>
      if name != details.username then Ok(false)
      else match IsTokenExpired(codec, token, nowMs, nowMs)
        case Err(e) => Err(e)
        case Ok(expired) => Ok(!expired)
  }

  // ---------------------------------------------------------------------
  // Properties

  /** With a whole number of seconds as lifetime, expiration is issue time plus that lifetime. */
  lemma ExpirationIsIssuePlusLifetime(details: UserDetails, nowMs: nat, expirationMs: nat)
    requires expirationMs % 1000 == 0
    ensures var c := TokenClaims(details, nowMs, expirationMs);
      c.expiration.value == c.issuedAt.value + expirationMs / 1000
  {
    var c := TokenClaims(details, nowMs, expirationMs);
    var q := expirationMs / 1000;
    assert expirationMs == q * 1000;
    var s := nowMs / 1000;
    assert s * 1000 + q * 1000 <= nowMs + expirationMs < s * 1000 + q * 1000 + 1000;
    assert (s + q) * 1000 <= nowMs + expirationMs < (s + q) * 1000 + 1000;
    assert c.expiration.value == s + q;
  }

  /** The default lifetime gives tokens valid for exactly 3600 seconds after issue. */
  lemma DefaultLifetimeIsOneHour(details: UserDetails, nowMs: nat)
    ensures var c := TokenClaims(details, nowMs, DEFAULT_EXPIRATION_MS);
      c.expiration.value == c.issuedAt.value + 3600
  {
    ExpirationIsIssuePlusLifetime(details, nowMs, DEFAULT_EXPIRATION_MS);
  }

  /** A generated token names its user: until it expires, `extractUsername`
      returns the username it was generated for, and afterwards the parser rejects it. */
  lemma GeneratedTokenSubject(codec: Codec, details: UserDetails, issuedMs: nat, expirationMs: nat, nowMs: nat)
    requires Faithful(codec)
    ensures var c := TokenClaims(details, issuedMs, expirationMs);
      var t := GenerateToken(codec, details, issuedMs, expirationMs);
      (nowMs <= c.expiration.value * 1000 ==> ExtractUsername(codec, t, nowMs) == Ok(Some(details.username)))
      && (nowMs > c.expiration.value * 1000 ==> ExtractUsername(codec, t, nowMs) == Err(ExpiredJwt))
  {
    var c := TokenClaims(details, issuedMs, expirationMs);
    assert codec.parse(codec.compact(c)) == Some(c);
  }

  /** The parser accepts a token whose expiration equals its clock: expiry is strict. */
  lemma ExpiryIsStrict(codec: Codec, token: string, nowMs: nat)
    requires codec.parse(token).Some? && codec.parse(token).value.expiration.Some?
    ensures var e := codec.parse(token).value.expiration.value;
      ExtractAllClaims(codec, token, nowMs).Ok? <==> nowMs <= e * 1000
  {
  }

  /** `validateToken` is true iff the token parses, its subject is the user's name and
      it has an expiration that is not before now. */
  lemma ValidateTokenIff(codec: Codec, token: string, details: UserDetails, nowMs: nat)
    ensures var p := codec.parse(token);
      ValidateToken(codec, token, details, nowMs) == Ok(true)
      <==> p.Some? && p.value.subject == Some(details.username)
           && p.value.expiration.Some? && nowMs <= p.value.expiration.value * 1000
  {
  }

  /** A token for another user is refused without looking at its expiration. */
  lemma ValidateTokenOtherUser(codec: Codec, token: string, details: UserDetails, nowMs: nat)
    requires ExtractUsername(codec, token, nowMs).Ok?
    requires ExtractUsername(codec, token, nowMs).value.Some?
    requires ExtractUsername(codec, token, nowMs).value.value != details.username
    ensures ValidateToken(codec, token, details, nowMs) == Ok(false)
  {
  }
}
