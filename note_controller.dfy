/** `NoteController`: the notes table guarded by ownership. */
module NoteController {
  import opened Common
  import opened Users

  datatype Note = Note(id: nat, title: string, content: string, ownerId: nat)

  /** The `@RequestBody Note` of create and update: the id and owner the client may
      have put in the body, and the title and content. */
  datatype NoteBody = NoteBody(id: Option<nat>, title: string, content: string, claimedOwner: Option<nat>)

  /** What an endpoint produces: 200 with a body, a bodiless status, or the
      RuntimeException of `getCurrentUser` escaping. */
  datatype Reply<+T> = Ok(body: T) | Status(code: int) | Raised(message: string)

  const FORBIDDEN: int := 403
  const NOT_FOUND: int := 404

  /** `getCurrentUser()`: the users row named by the authenticated principal. */
  function GetCurrentUser(rows: seq<User>, principal: string): (r: Reply<User>)
    ensures r.Ok? <==> FindByUsername(rows, principal).Some?
    ensures r.Ok? ==> r.body in rows && r.body.username == principal
    ensures !r.Ok? ==> r == Raised("User not found: " + principal)
  {
    match FindByUsername(rows, principal)
    case None => Raised("User not found: " + principal)
    case Some(u) => Ok(u)
  }

  /** `findByUserId(ownerId)`, as the set of rows it returns. */
  function NotesOf(store: map<nat, Note>, ownerId: nat): (r: set<Note>)
    ensures forall n :: n in r <==> n in store.Values && n.ownerId == ownerId
  {
    set n | n in store.Values && n.ownerId == ownerId
  }

  /** `updateNote(id, details)` on table `store`: the reply and the table afterwards. */
  function UpdateSpec(store: map<nat, Note>, rows: seq<User>, principal: string, id: nat, details: NoteBody)
    : (r: (Reply<Note>, map<nat, Note>))
    ensures id !in store ==> r == (Status(NOT_FOUND), store)
    ensures id in store && FindByUsername(rows, principal).None? ==> r == (Raised("User not found: " + principal), store)
    ensures r.0 == Status(FORBIDDEN) <==>
              id in store && FindByUsername(rows, principal).Some?
              && store[id].ownerId != FindByUsername(rows, principal).value.id
    ensures r.0.Ok? <==>
              id in store && FindByUsername(rows, principal).Some?
              && store[id].ownerId == FindByUsername(rows, principal).value.id
    ensures r.0.Ok? ==> r.0.body.id == store[id].id && r.0.body.ownerId == store[id].ownerId
                        && r.0.body.title == details.title && r.0.body.content == details.content
                        && r.1 == store[id := r.0.body]
    ensures !r.0.Ok? ==> r.1 == store
  {
    if id !in store then (Status(NOT_FOUND), store)
    else match GetCurrentUser(rows, principal)
      case Ok(user) =>
        if store[id].ownerId != user.id then (Status(FORBIDDEN), store)
        else
          var note := store[id].(title := details.title, content := details.content);
          (Ok(note), store[id := note])
      case _ => (Raised("User not found: " + principal), store)
  }

  /** `deleteNote(id)` on table `store`. */
  function DeleteSpec(store: map<nat, Note>, rows: seq<User>, principal: string, id: nat)
    : (r: (Reply<()>, map<nat, Note>))
    ensures id !in store ==> r == (Status(NOT_FOUND), store)
    ensures id in store && FindByUsername(rows, principal).None? ==> r == (Raised("User not found: " + principal), store)
    ensures r.0 == Status(FORBIDDEN) <==>
              id in store && FindByUsername(rows, principal).Some?
              && store[id].ownerId != FindByUsername(rows, principal).value.id
    ensures r.0.Ok? <==>
              id in store && FindByUsername(rows, principal).Some?
              && store[id].ownerId == FindByUsername(rows, principal).value.id
    ensures r.0.Ok? ==> r.1 == store - {id}
    ensures !r.0.Ok? ==> r.1 == store
  {
    if id !in store then (Status(NOT_FOUND), store)
    else match GetCurrentUser(rows, principal)
      case Ok(user) =>
        if store[id].ownerId != user.id then (Status(FORBIDDEN), store)
        else (Ok(()), store - {id})
      case _ => (Raised("User not found: " + principal), store)
  }

  /** Two updates with the same body on the same note give the same table as one. */
  lemma UpdateIdempotent(store: map<nat, Note>, rows: seq<User>, principal: string, id: nat, details: NoteBody)
    ensures var once := UpdateSpec(store, rows, principal, id, details);
      UpdateSpec(once.1, rows, principal, id, details).1 == once.1
  {
    var once := UpdateSpec(store, rows, principal, id, details);
    if once.0.Ok? {
      assert once.1[id].ownerId == store[id].ownerId;
    }
  }

  /** Every row is stored under its own id. */
  ghost predicate KeyedById(store: map<nat, Note>) {
    forall id :: id in store ==> store[id].id == id
  }

  /** A successful delete is final: a second delete of the same id answers 404, and the
      owner's listing loses exactly that note. */
  lemma DeleteThenNotFound(store: map<nat, Note>, rows: seq<User>, principal: string, id: nat)
    requires KeyedById(store)
    requires DeleteSpec(store, rows, principal, id).0.Ok?
    ensures var after := DeleteSpec(store, rows, principal, id).1;
      DeleteSpec(after, rows, principal, id) == (Status(NOT_FOUND), after)
      && NotesOf(after, FindByUsername(rows, principal).value.id)
         == NotesOf(store, FindByUsername(rows, principal).value.id) - {store[id]}
  {
    var after := store - {id};
    var uid := FindByUsername(rows, principal).value.id;
    forall n | n in NotesOf(after, uid) ensures n != store[id] {
      var k :| k in after && after[k] == n;
    }
    forall n | n in NotesOf(store, uid) && n != store[id] ensures n in NotesOf(after, uid) {
      var k :| k in store && store[k] == n;
      assert k in after;
    }
  }

  /** An unknown principal never changes the table: each operation answers 404 or raises. */
  lemma UnknownUserChangesNothing(store: map<nat, Note>, rows: seq<User>, principal: string, id: nat, details: NoteBody)
    requires FindByUsername(rows, principal).None?
    ensures UpdateSpec(store, rows, principal, id, details).1 == store
    ensures DeleteSpec(store, rows, principal, id).1 == store
    ensures UpdateSpec(store, rows, principal, id, details).0 in {Status(NOT_FOUND), Raised("User not found: " + principal)}
    ensures DeleteSpec(store, rows, principal, id).0 in {Status(NOT_FOUND), Raised("User not found: " + principal)}
  {
  }

  /** `createNote(note)` on table `store` whose next generated id is `nextId`: the
      reply, the table and the next id afterwards. `save` of a body that carries the
      id of a stored row merges onto that row; any other body is inserted under a
      generated id. */
  function CreateSpec(store: map<nat, Note>, nextId: nat, rows: seq<User>, principal: string, body: NoteBody)
    : (r: (Reply<Note>, map<nat, Note>, nat))
    ensures r.0.Ok? <==> FindByUsername(rows, principal).Some?
    ensures !r.0.Ok? ==> r == (Raised("User not found: " + principal), store, nextId)
    ensures r.0.Ok? ==>
              r.0.body.title == body.title && r.0.body.content == body.content
              && r.0.body.ownerId == FindByUsername(rows, principal).value.id
              && r.1 == store[r.0.body.id := r.0.body]
    ensures r.0.Ok? && body.id.Some? && body.id.value in store ==> r.0.body.id == body.id.value && r.2 == nextId
    ensures r.0.Ok? && !(body.id.Some? && body.id.value in store) ==> r.0.body.id == nextId && r.2 == nextId + 1
  {
    var user := GetCurrentUser(rows, principal);
    if !user.Ok? then (Raised("User not found: " + principal), store, nextId)
    else if body.id.Some? && body.id.value in store then
      var note := Note(body.id.value, body.title, body.content, user.body.id);
      (Ok(note), store[note.id := note], nextId)
    else
      var note := Note(nextId, body.title, body.content, user.body.id);
      (Ok(note), store[note.id := note], nextId + 1)
  }

  /** As written, create takes over any note whose id the body names: a caller who
      does not own note `k` and posts a body with id `k` overwrites it and becomes its owner. */
  lemma CreateSeizesNamedNote(store: map<nat, Note>, nextId: nat, rows: seq<User>, principal: string, body: NoteBody)
    requires KeyedById(store)
    requires FindByUsername(rows, principal).Some?
    requires body.id.Some? && body.id.value in store
    requires store[body.id.value].ownerId != FindByUsername(rows, principal).value.id
    ensures var after := CreateSpec(store, nextId, rows, principal, body).1;
      after[body.id.value] != store[body.id.value]
      && after[body.id.value].ownerId == FindByUsername(rows, principal).value.id
      && NotesOf(after, store[body.id.value].ownerId) == NotesOf(store, store[body.id.value].ownerId) - {store[body.id.value]}
  {
    var k := body.id.value;
    var victim := store[k].ownerId;
    var after := CreateSpec(store, nextId, rows, principal, body).1;
    forall n | n in NotesOf(store, victim) && n != store[k] ensures n in NotesOf(after, victim) {
      var j :| j in store && store[j] == n;
      assert j != k;
      assert after[j] == n;
    }
    forall n | n in NotesOf(after, victim) ensures n in NotesOf(store, victim) && n != store[k] {
      var j :| j in after && after[j] == n;
      assert j != k;
    }
  }

  /** Create as evidently intended: the body's id is ignored and the note is always
      inserted under a generated id. */
  function FreshCreateSpec(store: map<nat, Note>, nextId: nat, rows: seq<User>, principal: string, body: NoteBody)
    : (r: (Reply<Note>, map<nat, Note>, nat))
    ensures r.0.Ok? <==> FindByUsername(rows, principal).Some?
    ensures !r.0.Ok? ==> r == (Raised("User not found: " + principal), store, nextId)
    ensures r.0.Ok? ==>
              r.0.body == Note(nextId, body.title, body.content, FindByUsername(rows, principal).value.id)
              && r.1 == store[nextId := r.0.body] && r.2 == nextId + 1
  {
    CreateSpec(store, nextId, rows, principal, body.(id := None))
  }

  /** The intended create never changes a stored note: in a table whose ids are all
      below `nextId`, every stored note keeps its row and the new note gets a new id. */
  lemma FreshCreateKeepsStoredNotes(store: map<nat, Note>, nextId: nat, rows: seq<User>, principal: string, body: NoteBody)
    requires forall id :: id in store ==> id < nextId
    ensures var r := FreshCreateSpec(store, nextId, rows, principal, body);
      (forall id :: id in store ==> id in r.1 && r.1[id] == store[id])
      && (r.0.Ok? ==> r.0.body.id !in store && r.1.Keys == store.Keys + {r.0.body.id})
  {
    var r := FreshCreateSpec(store, nextId, rows, principal, body);
    if r.0.Ok? {
      assert r.0.body.id == nextId;
    }
  }

  class NoteRepository {
    var notes: map<nat, Note>
    var nextId: nat

    /** Every row is stored under its own id, and ids are handed out in increasing order. */
    ghost predicate Valid()
      reads this
    {
      KeyedById(notes) && forall id :: id in notes ==> id < nextId
    }

    constructor ()
      ensures Valid() && notes == map[]
    {
      notes := map[];
      nextId := 1;
    }
  }

  /** `getAllNotes()`: the notes of the authenticated user. */
  method GetAllNotes(repo: NoteRepository, users: UserRepository, principal: string)
    returns (reply: Reply<set<Note>>)
    ensures reply.Ok? <==> FindByUsername(users.rows, principal).Some?
    ensures reply.Ok? ==>
              forall n :: n in reply.body <==>
                n in repo.notes.Values && n.ownerId == FindByUsername(users.rows, principal).value.id
    ensures !reply.Ok? ==> reply == Raised("User not found: " + principal)
  {
    var user := GetCurrentUser(users.rows, principal);
    if !user.Ok? {
      return Raised("User not found: " + principal);
    }
    reply := Ok(NotesOf(repo.notes, user.body.id));
  }

  /** `createNote(note)`: the note is owned by the authenticated user whatever owner the
      body names, and is saved by `noteRepository.save`. */
  method CreateNote(repo: NoteRepository, users: UserRepository, principal: string, body: NoteBody)
    returns (reply: Reply<Note>)
    requires repo.Valid()
    modifies repo
    ensures repo.Valid()
    ensures (reply, repo.notes, repo.nextId) == CreateSpec(old(repo.notes), old(repo.nextId), users.rows, principal, body)
  {
    var user := GetCurrentUser(users.rows, principal);
    if !user.Ok? {
      return Raised("User not found: " + principal);
    }
    var note := Note(0, body.title, body.content, user.body.id);
    if body.id.Some? && body.id.value in repo.notes {
      note := note.(id := body.id.value);
    } else {
      note := note.(id := repo.nextId);
      repo.nextId := repo.nextId + 1;
    }
    repo.notes := repo.notes[note.id := note];
    reply := Ok(note);
  }

  /** `updateNote(id, noteDetails)`. */
  method UpdateNote(repo: NoteRepository, users: UserRepository, principal: string, id: nat, details: NoteBody)
    returns (reply: Reply<Note>)
    requires repo.Valid()
    modifies repo
    ensures repo.Valid() && repo.nextId == old(repo.nextId)
    ensures (reply, repo.notes) == UpdateSpec(old(repo.notes), users.rows, principal, id, details)
  {
    if id !in repo.notes {
      return Status(NOT_FOUND);
    }
    var note := repo.notes[id];
    var user := GetCurrentUser(users.rows, principal);
    if !user.Ok? {
      return Raised("User not found: " + principal);
    }
    if note.ownerId != user.body.id {
      return Status(FORBIDDEN);
    }
    note := note.(title := details.title);
    note := note.(content := details.content);
    repo.notes := repo.notes[id := note];
    reply := Ok(note);
  }

  /** `deleteNote(id)`. */
  method DeleteNote(repo: NoteRepository, users: UserRepository, principal: string, id: nat)
    returns (reply: Reply<()>)
    requires repo.Valid()
    modifies repo
    ensures repo.Valid() && repo.nextId == old(repo.nextId)
    ensures (reply, repo.notes) == DeleteSpec(old(repo.notes), users.rows, principal, id)
  {
    if id !in repo.notes {
      return Status(NOT_FOUND);
    }
    var note := repo.notes[id];
    var user := GetCurrentUser(users.rows, principal);
    if !user.Ok? {
      return Raised("User not found: " + principal);
    }
    if note.ownerId != user.body.id {
      return Status(FORBIDDEN);
    }
    repo.notes := repo.notes - {id};
    reply := Ok(());
  }
}
