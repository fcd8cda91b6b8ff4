/** Properties that span the client and the server: the bearer header written by
    the client's interceptor and read by the server's filter, the routes the filter
    leaves public, and signup from the client's form. */
module EndToEnd {
  import opened Common
  import Api
  import opened Users
  import opened UserDetailsService
  import opened JwtUtil
  import opened JwtAuthFilter
  import AuthController

  /** The request the server sees for a client request, after the interceptor ran
      with `stored` in local storage. */
  function Outgoing(r: Api.ApiRequest, headers: map<string, string>, stored: Option<string>): HttpRequest {
    HttpRequest(r.verb, Api.Uri(r), Api.WithAuthorization(headers, stored))
  }

  /** The token the login reply carries, once stored, comes back out of the
      Authorization header as the filter reads it. */
  lemma {:induction false} StoredTokenReachesFilter(headers: map<string, string>, token: string)
    requires token != ""
    ensures var stored := Lookup(map[Api.TOKEN_KEY := token], Api.TOKEN_KEY);
      BearerToken(Some(Api.WithAuthorization(headers, Some(Api.Stringified(stored)))["Authorization"])) == Some(token)
  {
    var header := Api.AUTH_SCHEME + token;
    assert StartsWith(header, BEARER_PREFIX);
    assert header[7..] == token;
  }

  /** Login and signup go to the routes the filter skips; the note requests do not. */
  lemma RoutesPastTheFilter(email: string, password: string, id: nat, title: string, content: string,
                            headers: map<string, string>, stored: Option<string>)
    ensures IsPublic(Outgoing(Api.LoginRequest(email, password), headers, stored))
    ensures IsPublic(Outgoing(Api.SignupRequest(email, password), headers, stored))
    ensures !IsPublic(Outgoing(Api.GetNotesRequest(), headers, stored))
    ensures !IsPublic(Outgoing(Api.CreateNoteRequest(title, content), headers, stored))
    ensures !IsPublic(Outgoing(Api.UpdateNoteRequest(id, title, content), headers, stored))
    ensures !IsPublic(Outgoing(Api.DeleteNoteRequest(id), headers, stored))
  {
    var notes := Api.Uri(Api.GetNotesRequest());
    assert notes[5] == 'n';
    var one := Api.Uri(Api.DeleteNoteRequest(id));
    assert one[5] == 'n';
    assert Api.Uri(Api.UpdateNoteRequest(id, title, content)) == one;
  }

  /** A token issued at login, presented by the client before it expires, makes the
      filter authenticate the user it was issued for, given that the codec reads back
      what it wrote and one clock reading serves the whole filter. */
  lemma LoginTokenAuthenticates(rows: seq<User>, codec: Codec, username: string,
                                issuedMs: nat, expirationMs: nat, nowMs: nat,
                                id: nat, headers: map<string, string>)
    requires Faithful(codec)
    requires LoadUserByUsername(rows, username).Loaded?
    requires nowMs + 1000 <= issuedMs + expirationMs
    ensures var details := LoadUserByUsername(rows, username).details;
      var token := GenerateToken(codec, details, issuedMs, expirationMs);
      var request := Outgoing(Api.DeleteNoteRequest(id), headers, Some(token));
      Decide(request, None, rows, codec, nowMs, nowMs) == Authenticate(Authentication(details, details.authorities))
  {
    var details := LoadUserByUsername(rows, username).details;
    var claims := TokenClaims(details, issuedMs, expirationMs);
    var token := GenerateToken(codec, details, issuedMs, expirationMs);
    assert codec.parse(token) == Some(claims) && token != "";
    var request := Outgoing(Api.DeleteNoteRequest(id), headers, Some(token));
    RoutesPastTheFilter("", "", id, "", "", headers, Some(token));
    StoredTokenReachesFilter(headers, token);
    assert AuthorizationHeader(request) == Some(Api.AUTH_SCHEME + token);
    SingleClockAuthenticatesKnownUser(request, rows, codec, token, claims, nowMs);
  }

  /** The request body the signup controller binds from what the client sent:
      an absent username arrives as null. */
  function BoundSignup(email: string, password: string): AuthController.AuthRequest {
    var body := Api.SignupRequest(email, password).body.value;
    AuthController.AuthRequest(Lookup(body, "username"), body["password"], body["email"])
  }

  /** Signing up from the client stores the email as the username, so the email the
      user later logs in with finds the new row. */
  lemma {:induction false} ClientSignupUsesEmail(rows: seq<User>, email: string, password: string,
                                                  encode: string -> string, id: nat)
    ensures AuthController.SignupUsername(BoundSignup(email, password)) == email
    ensures var saved := AuthController.NewUser(BoundSignup(email, password), encode).(id := id);
      LoadUserByUsername(rows + [saved], email).Loaded?
      && LoadUserByUsername(rows + [saved], email).details.username == email
  {
    var saved := AuthController.NewUser(BoundSignup(email, password), encode).(id := id);
    assert "username" !in Api.SignupRequest(email, password).body.value;
    assert saved in rows + [saved];
  }
}
