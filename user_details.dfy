/** `CustomUserDetailsService`: the mapping from a stored user to Spring's UserDetails. */
module UserDetailsService {
  import opened Common
  import opened Users

  /** Spring's `User(username, password, authorities)`. */
  datatype UserDetails = UserDetails(username: string, password: string, authorities: seq<string>)

  datatype LoadResult = Loaded(details: UserDetails) | UsernameNotFound(message: string)

  /** `loadUserByUsername`: look the name up and wrap the row, or raise
      UsernameNotFoundException. */
  function LoadUserByUsername(rows: seq<User>, username: string): (r: LoadResult)
    ensures r.UsernameNotFound? <==> forall u :: u in rows ==> u.username != username
    ensures r.UsernameNotFound? ==> r.message == "User not found with username: " + username
    ensures r.Loaded? ==> r.details.username == username && |r.details.authorities| == 1
    ensures r.Loaded? ==>
              exists u :: u in rows && u.username == username
                          && r.details.password == u.password && r.details.authorities == [u.role]
  {
    match FindByUsername(rows, username)
    case None => UsernameNotFound("User not found with username: " + username)
    case Some(u) => Loaded(UserDetails(u.username, u.password, [u.role]))
  }

  /** For a stored user: name, hashed password and the single role authority are the row's. */
  lemma LoadStoredUser(rows: seq<User>, k: nat)
    requires UniqueRows(rows)
    requires k < |rows|
    ensures LoadUserByUsername(rows, rows[k].username)
      == Loaded(UserDetails(rows[k].username, rows[k].password, [rows[k].role]))
  {
    FindStoredUser(rows, k);
  }
}
