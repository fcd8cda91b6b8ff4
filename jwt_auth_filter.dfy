/** `JwtAuthFilter.doFilterInternal`: the per-request decision to skip, to pass
    the request on unauthenticated, or to authenticate it from its bearer token. */
module JwtAuthFilter {
  import opened Common
  import opened Users
  import opened UserDetailsService
  import opened JwtUtil

  datatype HttpRequest = HttpRequest(verb: string, uri: string, headers: map<string, string>)

  /** `UsernamePasswordAuthenticationToken(userDetails, null, userDetails.getAuthorities())`;
      the web details attached to it are not modelled. */
  datatype Authentication = Authentication(principal: UserDetails, authorities: seq<string>)

  const BEARER_PREFIX: string := "Bearer "

  /** Requests the filter lets through without looking at any token. */
  predicate IsPublic(request: HttpRequest) {
    StartsWith(request.uri, "/api/auth/") || request.verb == "OPTIONS"
  }

  /** Everything below "/api/auth/" and every CORS preflight is public; "/api/auth"
      itself and the notes endpoints are not. */
  lemma PublicRequests(verb: string, uri: string, rest: string, headers: map<string, string>)
    ensures IsPublic(HttpRequest(verb, "/api/auth/" + rest, headers))
    ensures IsPublic(HttpRequest("OPTIONS", uri, headers))
    ensures verb != "OPTIONS" ==> !IsPublic(HttpRequest(verb, "/api/auth", headers))
    ensures verb != "OPTIONS" ==> !IsPublic(HttpRequest(verb, "/api/notes" + rest, headers))
  {
    assert ("/api/auth/" + rest)[..10] == "/api/auth/";
    assert ("/api/notes" + rest)[5] == 'n';
  }

  function AuthorizationHeader(request: HttpRequest): Option<string> {
    if "Authorization" in request.headers then Some(request.headers["Authorization"]) else None
  }

  /** The token carried by an Authorization header: the header minus its first
      seven characters, provided it starts with "Bearer ". */
  function BearerToken(header: Option<string>): (r: Option<string>)
    ensures r.Some? <==> header.Some? && StartsWith(header.value, BEARER_PREFIX)
    ensures r.Some? ==> header.value == BEARER_PREFIX + r.value
  {
    if header.Some? && StartsWith(header.value, BEARER_PREFIX) then Some(header.value[7..]) else None
  }

  /** Which path `doFilterInternal` takes. The last two are exceptions that
      escape the filter; every other path continues the chain. */
  datatype Decision =
    | Skipped                          // auth endpoint or CORS preflight
    | NoBearer                         // no header, or not a bearer header
    | Unreadable(error: JwtError)      // extractUsername threw
    | Unchanged                        // no subject, or an authentication is already present
    | NotValid                         // validateToken returned false
    | Authenticate(auth: Authentication)
    | LoadFailed(message: string)      // UsernameNotFoundException from loadUserByUsername
    | ValidateFailed(error: JwtError)  // validateToken threw

  predicate Escapes(d: Decision) {
    d.LoadFailed? || d.ValidateFailed?
  }

  /** The filter's decision for `request` given the authentication already in the
      security context, the users table, the token codec and two clock readings:
      `extractMs` for the guarded `extractUsername` and `validateMs` for `validateToken`. */
  function Decide(request: HttpRequest, current: Option<Authentication>, rows: seq<User>,
                  codec: Codec, extractMs: nat, validateMs: nat): (d: Decision)
    ensures IsPublic(request) ==> d == Skipped
    ensures d.Authenticate? ==> current.None?
    ensures d.Authenticate? ==> d.auth.authorities == d.auth.principal.authorities
  {
    if IsPublic(request) then Skipped
    else match BearerToken(AuthorizationHeader(request))
      case None => NoBearer
      case Some(token) =>
        match ExtractUsername(codec, token, extractMs)
        case Err(e) => Unreadable(e)
        case Ok(None) => Unchanged
        case Ok(Some(username)) =>
          if current.Some? then Unchanged
          else match LoadUserByUsername(rows, username)
            case UsernameNotFound(msg) => LoadFailed(msg)
            case Loaded(details) =>
              match ValidateToken(codec, token, details, validateMs)
              case Err(e) => ValidateFailed(e)
              case Ok(false) => NotValid
              case Ok(true) => Authenticate(Authentication(details, details.authorities))
  }

  class SecurityContext {
    var authentication: Option<Authentication>

    constructor ()
      ensures authentication == None
    {
      authentication := None;
    }
  }

  /** The rest of the servlet filter chain; only the number of times it is entered is observed. */
  class FilterChain {
    var invocations: nat

    constructor ()
      ensures invocations == 0
    {
      invocations := 0;
    }

    method DoFilter()
      modifies this
      ensures invocations == old(invocations) + 1
    {
      invocations := invocations + 1;
    }
  }

  method DoFilterInternal(request: HttpRequest, context: SecurityContext, chain: FilterChain,
                          rows: seq<User>, codec: Codec, extractMs: nat, validateMs: nat)
    returns (d: Decision)
    modifies context, chain
    ensures d == Decide(request, old(context.authentication), rows, codec, extractMs, validateMs)
    ensures context.authentication == if d.Authenticate? then Some(d.auth) else old(context.authentication)
    ensures chain.invocations == old(chain.invocations) + (if Escapes(d) then 0 else 1)
  {
    if StartsWith(request.uri, "/api/auth/") || request.verb == "OPTIONS" {
      chain.DoFilter();
      return Skipped;
    }
    var authHeader := AuthorizationHeader(request);
    if authHeader.None? || !StartsWith(authHeader.value, BEARER_PREFIX) {
      chain.DoFilter();
      return NoBearer;
    }
    var token := authHeader.value[7..];
    var extracted := ExtractUsername(codec, token, extractMs);
    if extracted.Err? {
      chain.DoFilter();
      return Unreadable(extracted.error);
    }
    var username := extracted.value;
    d := Unchanged;
    if username.Some? && context.authentication.None? {
      var loaded := LoadUserByUsername(rows, username.value);
      if loaded.UsernameNotFound? {
        return LoadFailed(loaded.message);
      }
      var details := loaded.details;
      var valid := ValidateToken(codec, token, details, validateMs);
      if valid.Err? {
        return ValidateFailed(valid.error);
      }
      if valid.value {
        var auth := Authentication(details, details.authorities);
        context.authentication := Some(auth);
        d := Authenticate(auth);
      } else {
        d := NotValid;
      }
    }
    chain.DoFilter();
  }

  // ---------------------------------------------------------------------
  // Properties of the decision

  /** Without a bearer header the request passes on and nothing is authenticated. */
  lemma NoBearerPassesThrough(request: HttpRequest, current: Option<Authentication>, rows: seq<User>,
                              codec: Codec, extractMs: nat, validateMs: nat)
    requires !IsPublic(request)
    requires AuthorizationHeader(request).None? || !StartsWith(AuthorizationHeader(request).value, BEARER_PREFIX)
    ensures Decide(request, current, rows, codec, extractMs, validateMs) == NoBearer
  {
  }

  /** A token whose username cannot be extracted (malformed, wrongly signed or expired)
      lets the request pass on unauthenticated. */
  lemma UnreadableTokenPassesThrough(request: HttpRequest, current: Option<Authentication>, rows: seq<User>,
                                     codec: Codec, extractMs: nat, validateMs: nat)
    requires !IsPublic(request)
    requires BearerToken(AuthorizationHeader(request)).Some?
    requires ExtractAllClaims(codec, BearerToken(AuthorizationHeader(request)).value, extractMs).Err?
    ensures var d := Decide(request, current, rows, codec, extractMs, validateMs);
      d.Unreadable? && !Escapes(d)
  {
  }

  /** An authentication already in the context is never replaced, and no user is loaded. */
  lemma NeverOverwrites(request: HttpRequest, current: Option<Authentication>, rows: seq<User>,
                        codec: Codec, extractMs: nat, validateMs: nat)
    requires current.Some?
    ensures var d := Decide(request, current, rows, codec, extractMs, validateMs);
      !d.Authenticate? && !Escapes(d)
  {
  }

  /** Authentication is set only when `validateToken` holds for the token's user, and it
      carries that user's details and authorities. */
  lemma AuthenticatesOnlyValidTokens(request: HttpRequest, current: Option<Authentication>, rows: seq<User>,
                                     codec: Codec, extractMs: nat, validateMs: nat)
    requires Decide(request, current, rows, codec, extractMs, validateMs).Authenticate?
    ensures var token := BearerToken(AuthorizationHeader(request));
      var name := ExtractUsername(codec, token.value, extractMs);
      var auth := Decide(request, current, rows, codec, extractMs, validateMs).auth;
      token.Some? && name.Ok? && name.value.Some?
      && LoadUserByUsername(rows, name.value.value) == Loaded(auth.principal)
      && ValidateToken(codec, token.value, auth.principal, validateMs) == Ok(true)
      && auth.principal.username == name.value.value
  {
  }

  /** With one clock reading, `validateToken` cannot fail once the token's user has been
      loaded: a current token of a known user, carrying an expiration, authenticates that user. */
  lemma SingleClockAuthenticatesKnownUser(request: HttpRequest, rows: seq<User>, codec: Codec,
                                          token: string, claims: Claims, nowMs: nat)
    requires !IsPublic(request)
    requires BearerToken(AuthorizationHeader(request)) == Some(token)
    requires codec.parse(token) == Some(claims)
    requires claims.subject.Some? && claims.expiration.Some?
    requires nowMs <= claims.expiration.value * 1000
    requires LoadUserByUsername(rows, claims.subject.value).Loaded?
    ensures var details := LoadUserByUsername(rows, claims.subject.value).details;
      Decide(request, None, rows, codec, nowMs, nowMs) == Authenticate(Authentication(details, details.authorities))
  {
    var details := LoadUserByUsername(rows, claims.subject.value).details;
    assert ExtractUsername(codec, token, nowMs) == Ok(claims.subject);
    assert details.username == claims.subject.value;
    assert IsTokenExpired(codec, token, nowMs, nowMs) == Ok(false);
  }
}
