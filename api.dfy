/** api.js: the axios client. A token kept in local storage, the interceptor that
    turns it into an Authorization header, and the requests each exported call sends. */
module Api {
  import opened Common

  const ORIGIN: string := "http://localhost:8080"
  /** `API_BASE_URL` is the origin followed by this path. */
  const BASE_PATH: string := "/api"
  const TOKEN_KEY: string := "token"
  const AUTH_SCHEME: string := "Bearer "
  const NOTES_PATH: string := "/notes"

  /** `window.localStorage`: string keys to string values. */
  class LocalStorage {
    var items: map<string, string>

    constructor (initial: map<string, string>)
      ensures items == initial
    {
      items := initial;
    }

    /** `getItem`: null for a missing key. */
    function GetItem(key: string): (r: Option<string>)
      reads this
      ensures r == Lookup(items, key)
    {
      if key in items then Some(items[key]) else None
    }

    method SetItem(key: string, value: string)
      modifies this
      ensures items == old(items)[key := value]
    {
      items := items[key := value];
    }

    method RemoveItem(key: string)
      modifies this
      ensures items == old(items) - {key}
    {
      items := items - {key};
    }
  }

  /** What `setItem` stores for a JavaScript value that may be undefined: the
      string itself, or the text "undefined". */
  function Stringified(v: Option<string>): (r: string)
    ensures v.Some? ==> r == v.value
    ensures v.None? ==> r == "undefined"
  {
    match v
    case Some(text) => text
    case None => "undefined"
  }

  /** The headers the interceptor leaves on a request, given the stored token. */
  function WithAuthorization(headers: map<string, string>, stored: Option<string>): (r: map<string, string>)
    ensures Truthy(stored) ==> r == headers["Authorization" := AUTH_SCHEME + stored.value]
    ensures !Truthy(stored) ==> r == headers
  {
    if Truthy(stored) then headers["Authorization" := AUTH_SCHEME + stored.value] else headers
  }

  /** Only the Authorization header is ever touched, and adding it again changes nothing. */
  lemma WithAuthorizationIdempotent(headers: map<string, string>, stored: Option<string>)
    ensures WithAuthorization(WithAuthorization(headers, stored), stored) == WithAuthorization(headers, stored)
    ensures forall h :: h in headers && h != "Authorization" ==>
              h in WithAuthorization(headers, stored) && WithAuthorization(headers, stored)[h] == headers[h]
  {
  }

  /** An axios request config, of which the interceptor edits the headers. */
  class RequestConfig {
    var headers: map<string, string>

    constructor (initial: map<string, string>)
      ensures headers == initial
    {
      headers := initial;
    }
  }

  /** The request interceptor. */
  method Intercept(storage: LocalStorage, config: RequestConfig)
    modifies config
    ensures config.headers == WithAuthorization(old(config.headers), storage.GetItem(TOKEN_KEY))
  {
    var token := storage.GetItem(TOKEN_KEY);
    if Truthy(token) {
      config.headers := config.headers["Authorization" := AUTH_SCHEME + token.value];
    }
  }

  /** A request as the client sends it: the verb, the path below the base URL,
      and the JSON body, if any. */
  datatype ApiRequest = ApiRequest(verb: string, path: string, body: Option<map<string, string>>)

  /** The request URI the server sees. */
  function Uri(r: ApiRequest): string {
    BASE_PATH + r.path
  }

  function LoginRequest(username: string, password: string): (r: ApiRequest)
    ensures r.verb == "POST" && Uri(r) == "/api/auth/login"
    ensures r.body.Some? && r.body.value.Keys == {"username", "password"}
    ensures r.body.value["username"] == username && r.body.value["password"] == password
  {
    ApiRequest("POST", "/auth/login", Some(map["username" := username, "password" := password]))
  }

  /** Signup sends the email and password and no username. */
  function SignupRequest(email: string, password: string): (r: ApiRequest)
    ensures r.verb == "POST" && Uri(r) == "/api/auth/signup"
    ensures r.body.Some? && r.body.value.Keys == {"email", "password"} && "username" !in r.body.value
    ensures r.body.value["email"] == email && r.body.value["password"] == password
  {
    ApiRequest("POST", "/auth/signup", Some(map["email" := email, "password" := password]))
  }

  function GetNotesRequest(): (r: ApiRequest)
    ensures r.verb == "GET" && Uri(r) == "/api/notes" && r.body.None?
  {
    ApiRequest("GET", NOTES_PATH, None)
  }

  /** Create posts the title and content only: no id and no owner. */
  function CreateNoteRequest(title: string, content: string): (r: ApiRequest)
    ensures r.verb == "POST" && Uri(r) == "/api/notes"
    ensures r.body == Some(map["title" := title, "content" := content])
    ensures "id" !in r.body.value && "user" !in r.body.value
  {
    ApiRequest("POST", NOTES_PATH, Some(map["title" := title, "content" := content]))
  }

  /** The path of one note: `/notes/${id}`. */
  function NotePath(id: nat): string {
    NOTES_PATH + "/" + Decimal(id)
  }

  /** The note id a path `/notes/{id}` designates, as the server reads it. */
  function NoteIdOf(path: string): (r: Option<nat>)
    ensures r.Some? ==> StartsWith(path, NOTES_PATH + "/") && |path| > |NOTES_PATH + "/"|
  {
    var prefix := NOTES_PATH + "/";
    if StartsWith(path, prefix) then ParseDecimal(path[|prefix|..]) else None
  }

  lemma {:induction false} NotePathRoundTrip(id: nat)
    ensures NoteIdOf(NotePath(id)) == Some(id)
  {
    var prefix := NOTES_PATH + "/";
    assert NotePath(id) == prefix + Decimal(id);
    assert NotePath(id)[|prefix|..] == Decimal(id);
    DecimalRoundTrip(id);
  }

  function UpdateNoteRequest(id: nat, title: string, content: string): (r: ApiRequest)
    ensures r.verb == "PUT" && r.path == NotePath(id)
    ensures r.body == Some(map["title" := title, "content" := content])
  {
    ApiRequest("PUT", NotePath(id), Some(map["title" := title, "content" := content]))
  }

  function DeleteNoteRequest(id: nat): (r: ApiRequest)
    ensures r.verb == "DELETE" && r.path == NotePath(id) && r.body.None?
  {
    ApiRequest("DELETE", NotePath(id), None)
  }

  /** Update and delete address the note they were given and no other. */
  lemma NoteRequestsTargetTheirId(id: nat, other: nat, title: string, content: string)
    ensures NoteIdOf(UpdateNoteRequest(id, title, content).path) == Some(id)
    ensures NoteIdOf(DeleteNoteRequest(id).path) == Some(id)
    ensures id != other ==> DeleteNoteRequest(id).path != DeleteNoteRequest(other).path
  {
    NotePathRoundTrip(id);
    NotePathRoundTrip(other);
  }

  /** `login`: sends the credentials; on success stores `response.data.token` under
      "token" and resolves to it. `reply` is how the request settles (the response body). */
  method Login(storage: LocalStorage, username: string, password: string, reply: Outcome<map<string, string>>)
    returns (sent: ApiRequest, result: Outcome<Option<string>>)
    modifies storage
    ensures sent == LoginRequest(username, password)
    ensures reply.Rejected? ==> result == Rejected(reply.error) && storage.items == old(storage.items)
    ensures reply.Resolved? ==>
              var token := Lookup(reply.value, TOKEN_KEY);
              result == Resolved(token)
              && storage.items == old(storage.items)[TOKEN_KEY := Stringified(token)]
  {
    sent := LoginRequest(username, password);
    match reply {
      case Rejected(e) =>
        result := Rejected(e);
      case Resolved(data) =>
        var token := Lookup(data, TOKEN_KEY);
        storage.SetItem(TOKEN_KEY, Stringified(token));
        result := Resolved(token);
    }
  }

  /** `logout`: forgets the token and nothing else. */
  method Logout(storage: LocalStorage)
    modifies storage
    ensures storage.items == old(storage.items) - {TOKEN_KEY}
  {
    storage.RemoveItem(TOKEN_KEY);
  }

  /** A login reply without a token still leaves a truthy value behind, so later
      requests carry the header "Bearer undefined". */
  lemma MissingTokenStoredAsUndefined(headers: map<string, string>)
    ensures WithAuthorization(headers, Some(Stringified(None)))["Authorization"] == "Bearer undefined"
  {
  }
}
