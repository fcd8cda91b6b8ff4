/** `AuthController` of the mynotesapp backend: signup and login. */
module AuthController {
  import opened Common
  import opened Http
  import opened Users
  import opened UserDetailsService
  import opened JwtUtil

  /** The signup/login request body. Only the username may arrive as null. */
  datatype AuthRequest = AuthRequest(username: Option<string>, password: string, email: string)

  const ROLE_USER: string := "ROLE_USER"

  /** The username signup stores: the request's own, or the email when it is null or empty. */
  function SignupUsername(request: AuthRequest): (r: string)
    ensures request.username.None? || request.username.value == "" ==> r == request.email
    ensures request.username.Some? && request.username.value != "" ==> r == request.username.value
  {
    if request.username.None? || request.username.value == "" then request.email
    else request.username.value
  }

  /** The entity signup hands to `save`: no id yet, the encoded password, role ROLE_USER
      and no wallet. `encode` is the password encoder (BCrypt), an opaque function. */
  function NewUser(request: AuthRequest, encode: string -> string): (u: User)
    ensures u.username == SignupUsername(request) && u.email == request.email
    ensures u.password == encode(request.password) && u.role == ROLE_USER
    ensures u.walletAddress.None? && u.secondaryWalletAddress.None?
  {
    User(0, SignupUsername(request), request.email, encode(request.password), ROLE_USER, None, None)
  }

  /** `registerUser`: refuse a known email with 400, otherwise insert the new user and
      answer 201. A username already taken makes the insert fail. */
  method RegisterUser(repo: UserRepository, request: AuthRequest, encode: string -> string)
    returns (response: Response)
    requires repo.Valid()
    modifies repo
    ensures repo.Valid()
    ensures ExistsByEmail(old(repo.rows), request.email) ==>
              response == Response(BAD_REQUEST, Text("Email is already in use!")) && repo.rows == old(repo.rows)
    ensures !ExistsByEmail(old(repo.rows), request.email) && FindByUsername(old(repo.rows), SignupUsername(request)).Some? ==>
              response.Raised? && repo.rows == old(repo.rows)
    ensures !ExistsByEmail(old(repo.rows), request.email) && FindByUsername(old(repo.rows), SignupUsername(request)).None? ==>
              response == Response(CREATED, Text("User registered successfully"))
              && repo.rows == old(repo.rows) + [NewUser(request, encode).(id := old(repo.nextId))]
  {
    if ExistsByEmail(repo.rows, request.email) {
      return Response(BAD_REQUEST, Text("Email is already in use!"));
    }
    var req := request;
    if req.username.None? || req.username.value == "" {
      req := req.(username := Some(req.email));
    }
    var user := User(0, req.username.value, req.email, encode(req.password), ROLE_USER, None, None);
    var saved := repo.Insert(user);
    if saved.None? {
      return Raised("DataIntegrityViolationException");
    }
    response := Response(CREATED, Text("User registered successfully"));
  }

  /** `authenticateUser`. `managerAccepts` is the AuthenticationManager's verdict on the
      credentials; the token is generated at clock `nowMs` with lifetime `expirationMs`. */
  method AuthenticateUser(repo: UserRepository, request: AuthRequest, managerAccepts: bool,
                          codec: Codec, nowMs: nat, expirationMs: nat)
    returns (response: Response)
    ensures !managerAccepts ==> response == Response(UNAUTHORIZED, Text("Invalid username or password"))
    ensures managerAccepts && request.username.Some? && LoadUserByUsername(repo.rows, request.username.value).Loaded? ==>
              var details := LoadUserByUsername(repo.rows, request.username.value).details;
              response == Response(OK, Fields(map["token" := GenerateToken(codec, details, nowMs, expirationMs)]))
    ensures managerAccepts && (request.username.None? || LoadUserByUsername(repo.rows, request.username.value).UsernameNotFound?) ==>
              response.Raised?
    ensures response.Response? && response.status == OK ==>
              response.body.Fields? && response.body.fields.Keys == {"token"}
  {
    if !managerAccepts {
      return Response(UNAUTHORIZED, Text("Invalid username or password"));
    }
    if request.username.None? {
      return Raised("User not found with username: null");
    }
    var loaded := LoadUserByUsername(repo.rows, request.username.value);
    if loaded.UsernameNotFound? {
      return Raised(loaded.message);
    }
    var token := GenerateToken(codec, loaded.details, nowMs, expirationMs);
    var body: map<string, string> := map[];
    body := body["token" := token];
    response := Response(OK, Fields(body));
  }
}
