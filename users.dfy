/** The `users` table and its JPA repository, kept as rows in insertion order.
    The two `User` classes of the backend (`user.User`, which the controllers save,
    and `model.User`, which declares the unique username column) are merged into
    one record carrying the union of their fields. */
module Users {
  import opened Common

  datatype User = User(
    id: nat,
    username: string,
    email: string,
    password: string,            // the encoded (hashed) password
    role: string,
    walletAddress: Option<string>,
    secondaryWalletAddress: Option<string>)

  /** No two rows share an id or a username (the primary key and the unique column). */
  ghost predicate UniqueRows(rows: seq<User>) {
    forall i, j :: 0 <= i < j < |rows| ==> rows[i].id != rows[j].id && rows[i].username != rows[j].username
  }

  /** Index of the row whose username is `name`, searching in table order. */
  function IndexOfUsername(rows: seq<User>, name: string): (r: Option<nat>)
    ensures r.Some? ==> r.value < |rows| && rows[r.value].username == name
    ensures r.Some? ==> forall k :: 0 <= k < r.value ==> rows[k].username != name
    ensures r.None? <==> forall k :: 0 <= k < |rows| ==> rows[k].username != name
  {
    if |rows| == 0 then None
    else if rows[0].username == name then Some(0)
    else match IndexOfUsername(rows[1..], name)
      case None => None
      case Some(k) => Some(k + 1)
  }

  /** `userRepository.findByUsername(name)`. */
  function FindByUsername(rows: seq<User>, name: string): (r: Option<User>)
    ensures r.Some? ==> r.value in rows && r.value.username == name
    ensures r.None? <==> forall u :: u in rows ==> u.username != name
  {
    match IndexOfUsername(rows, name)
    case None => None
    case Some(k) => Some(rows[k])
  }

  /** `userRepository.existsByEmail(email)`. */
  function ExistsByEmail(rows: seq<User>, email: string): (r: bool)
    ensures r <==> exists k :: 0 <= k < |rows| && rows[k].email == email
  {
    |rows| > 0 && (rows[0].email == email || ExistsByEmail(rows[1..], email))
  }

  /** In a table with unique usernames, looking up a stored user's name yields that user. */
  lemma FindStoredUser(rows: seq<User>, k: nat)
    requires UniqueRows(rows)
    requires k < |rows|
    ensures FindByUsername(rows, rows[k].username) == Some(rows[k])
  {
    var i := IndexOfUsername(rows, rows[k].username);
    assert i.Some? && i.value <= k;
  }

  class UserRepository {
    var rows: seq<User>
    var nextId: nat

    ghost predicate Valid()
      reads this
    {
      UniqueRows(rows) && forall k :: 0 <= k < |rows| ==> rows[k].id < nextId
    }

    constructor ()
      ensures Valid() && rows == []
    {
      rows := [];
      nextId := 1;
    }

    /** `save` of a new entity: the row gets a fresh identity value; the username
        column, taken to be unique as `model.User` declares it, rejects a name that
        is already taken. */
    method Insert(user: User) returns (saved: Option<User>)
      requires Valid()
      modifies this
      ensures Valid()
      ensures saved.Some? <==> FindByUsername(old(rows), user.username).None?
      ensures saved.Some? ==> saved.value == user.(id := old(nextId)) && rows == old(rows) + [saved.value]
      ensures saved.None? ==> rows == old(rows)
    {
      if FindByUsername(rows, user.username).Some? {
        return None;
      }
      var row := user.(id := nextId);
      rows := rows + [row];
      nextId := nextId + 1;
      saved := Some(row);
    }

    /** `save` of a loaded entity: replaces the row it came from. */
    method Update(k: nat, user: User)
      requires Valid()
      requires k < |rows| && user.id == rows[k].id && user.username == rows[k].username
      modifies this
      ensures Valid()
      ensures rows == old(rows)[k := user] && nextId == old(nextId)
    {
      rows := rows[k := user];
    }
  }
}
