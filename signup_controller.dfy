/** The signup-only `AuthController` of the earlier my-notes-app backend. */
module SignupController {
  import opened Common
  import opened Http
  import opened Users
  import AuthController

  /** `registerUser`: the same rules as the later controller; the 201 answer carries no token. */
  method RegisterUser(repo: UserRepository, request: AuthController.AuthRequest, encode: string -> string)
    returns (response: Response)
    requires repo.Valid()
    modifies repo
    ensures repo.Valid()
    ensures ExistsByEmail(old(repo.rows), request.email) ==>
              response == Response(BAD_REQUEST, Text("Email is already in use!")) && repo.rows == old(repo.rows)
    ensures !ExistsByEmail(old(repo.rows), request.email)
            && FindByUsername(old(repo.rows), AuthController.SignupUsername(request)).Some? ==>
              response.Raised? && repo.rows == old(repo.rows)
    ensures !ExistsByEmail(old(repo.rows), request.email)
            && FindByUsername(old(repo.rows), AuthController.SignupUsername(request)).None? ==>
              response == Response(CREATED, Text("User registered successfully"))
              && repo.rows == old(repo.rows) + [AuthController.NewUser(request, encode).(id := old(repo.nextId))]
    ensures response.Response? ==> response.body.Text?
  {
    if ExistsByEmail(repo.rows, request.email) {
      return Response(BAD_REQUEST, Text("Email is already in use!"));
    }
    var req := request;
    if req.username.None? || req.username.value == "" {
      req := req.(username := Some(req.email));
    }
    var user := User(0, req.username.value, req.email, encode(req.password), AuthController.ROLE_USER, None, None);
    var saved := repo.Insert(user);
    if saved.None? {
      return Raised("DataIntegrityViolationException");
    }
    response := Response(CREATED, Text("User registered successfully"));
  }
}
