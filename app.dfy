/** App.jsx: the note editor's save rule, the dashboard's handlers (fetch, save,
    delete, logout, proof transaction) and the initial authentication state. */
module App {
  import opened Common
  import Api
  import EthWallet

  /** What the rich-text editor holds when it is visually empty. */
  const EMPTY_EDITOR_HTML: string := "<p><br></p>"

  const FETCH_FAILED: string := "Failed to fetch notes. Your session may have expired."
  const SAVE_FAILED: string := "Failed to save note."
  const DELETE_FAILED: string := "Failed to delete note."
  const CONNECT_FIRST: string := "Please connect your MetaMask wallet first."
  const TX_REVERTED: string := "Transaction failed (Status 0)."
  const TX_REJECTED: string := "Transaction rejected by user."

  /** A note as the client holds it; a new note has no id. */
  datatype ClientNote = ClientNote(id: Option<nat>, title: string, content: string)

  // ---------------------------------------------------------------------
  // NoteEditor

  /** The guard of `handleSave`. */
  predicate CanSave(title: string, content: string) {
    JsTrim(title) != [] && content != EMPTY_EDITOR_HTML && JsTrim(content) != []
  }

  predicate HasVisibleChar(s: string) {
    exists k :: 0 <= k < |s| && !IsJsSpace(s[k])
  }

  /** A save goes ahead exactly when title and content each show a visible character
      and the content is not the editor's empty paragraph. */
  lemma CanSaveIff(title: string, content: string)
    ensures CanSave(title, content) <==>
              HasVisibleChar(title) && HasVisibleChar(content) && content != EMPTY_EDITOR_HTML
  {
    TrimEmptyIff(title, IsJsSpace);
    TrimEmptyIff(content, IsJsSpace);
  }

  /** The empty paragraph survives the trim test, so only the comparison with it
      keeps an editor that only looks empty from being saved. */
  lemma EmptyParagraphGuardNeeded()
    ensures JsTrim(EMPTY_EDITOR_HTML) != [] && HasVisibleChar(EMPTY_EDITOR_HTML)
    ensures forall title :: !CanSave(title, EMPTY_EDITOR_HTML)
  {
    assert !IsJsSpace(EMPTY_EDITOR_HTML[0]);
    TrimEmptyIff(EMPTY_EDITOR_HTML, IsJsSpace);
  }

  /** `{ ...currentNote, title, content }`: the edited fields over the current note,
      or over nothing when creating. */
  function Edited(current: Option<ClientNote>, title: string, content: string): (r: ClientNote)
    ensures r.title == title && r.content == content
    ensures current.Some? ==> r.id == current.value.id
    ensures current.None? ==> r.id.None?
  {
    match current
    case Some(note) => note.(title := title, content := content)
    case None => ClientNote(None, title, content)
  }

  class NoteEditor {
    var title: string
    var content: string

    constructor (current: Option<ClientNote>)
      ensures current.Some? ==> title == current.value.title && content == current.value.content
      ensures current.None? ==> title == "" && content == ""
    {
      match current {
        case Some(note) =>
          title, content := note.title, note.content;
        case None =>
          title, content := "", "";
      }
    }

    /** `handleSave`: returns the note handed to `onSave`, if any. */
    method HandleSave(dashboard: Dashboard) returns (saved: Option<ClientNote>)
      modifies this, dashboard`currentNote
      ensures !CanSave(old(title), old(content)) ==>
                saved.None? && title == old(title) && content == old(content)
                && dashboard.currentNote == old(dashboard.currentNote)
      ensures CanSave(old(title), old(content)) ==>
                saved == Some(Edited(old(dashboard.currentNote), old(title), old(content)))
                && title == "" && content == "" && dashboard.currentNote.None?
    {
      if !CanSave(title, content) {
        return None;
      }
      saved := Some(Edited(dashboard.currentNote, title, content));
      title := "";
      content := "";
      dashboard.currentNote := None;
    }
  }

  // ---------------------------------------------------------------------
  // NotesDashboard

  datatype TxKind = Pending | Succeeded | Failed

  /** `txStatus`: the message shown, its kind and, on success, the hash. */
  datatype TxStatus = TxStatus(message: string, kind: TxKind, hash: Option<string>)

  /** What `tx.wait()` resolves to, as far as the handler looks at it. */
  datatype Receipt = Receipt(status: int, hash: string)

  /** `s.substring(0, n)`. */
  function Prefix(s: string, n: nat): (r: string)
    ensures |r| == (if |s| < n then |s| else n) && r == s[..|r|]
  {
    if |s| <= n then s else s[..n]
  }

  /** The final status of a proof transaction that was sent, from how sending
      and waiting for the receipt settled. */
  function ProofStatus(outcome: Outcome<Receipt>): (r: TxStatus)
    ensures r.kind != Pending
    ensures r.kind == Succeeded <==> outcome.Resolved? && outcome.value.status == 1
    ensures r.kind == Succeeded ==>
              r.hash == Some(outcome.value.hash)
              && r.message == "Transaction successful! TX Hash: " + Prefix(outcome.value.hash, 10) + "..."
    ensures r.kind != Succeeded ==> r.hash.None?
    ensures outcome.Resolved? && outcome.value.status != 1 ==> r.message == TX_REVERTED
    ensures outcome.Rejected? ==>
              r.message == (if outcome.error.code == Some(4001) then TX_REJECTED
                            else "Transaction failed: " + OrElse(outcome.error.message, "Check console."))
  {
    match outcome
    case Resolved(receipt) =>
      if receipt.status == 1 then
        TxStatus("Transaction successful! TX Hash: " + Prefix(receipt.hash, 10) + "...", Succeeded, Some(receipt.hash))
      else TxStatus(TX_REVERTED, Failed, None)
    case Rejected(e) =>
      var text := if e.code == Some(4001) then TX_REJECTED else "Transaction failed: " + OrElse(e.message, "Check console.");
      TxStatus(text, Failed, None)
  }

  /** The dashboard's state, with the app's `isAuthenticated` that it clears on logout. */
  datatype DashState = DashState(
    notes: seq<ClientNote>,
    currentNote: Option<ClientNote>,
    loading: bool,
    error: Option<string>,
    txStatus: Option<TxStatus>,
    authenticated: bool)

  /** A dashboard state after a handler, and whether the handler logged out. */
  datatype Effect = Effect(state: DashState, loggedOut: bool)

  /** A failed fetch answered 401. */
  predicate Unauthorized(reply: Outcome<seq<ClientNote>>) {
    reply.Rejected? && reply.error.responseStatus == Some(401)
  }

  function AfterLogout(d: DashState): (r: DashState)
    ensures !r.authenticated
    ensures r.(authenticated := d.authenticated) == d
  {
    d.(authenticated := false)
  }

  /** `fetchNotes`, given how `GET /notes` settles. */
  function AfterFetch(d: DashState, reply: Outcome<seq<ClientNote>>): (r: Effect)
    ensures !r.state.loading
    ensures r.loggedOut <==> Unauthorized(reply)
    ensures reply.Resolved? ==> r.state.notes == reply.value && r.state.error.None?
    ensures reply.Rejected? ==> r.state.notes == d.notes && r.state.error == Some(FETCH_FAILED)
    ensures r.state.authenticated == (d.authenticated && !r.loggedOut)
    ensures r.state.currentNote == d.currentNote && r.state.txStatus == d.txStatus
  {
    var started := d.(loading := true, error := None);
    match reply
    case Resolved(list) => Effect(started.(notes := list, loading := false), false)
    case Rejected(e) =>
      var failed := started.(error := Some(FETCH_FAILED));
      if Unauthorized(reply) then Effect(AfterLogout(failed).(loading := false), true)
      else Effect(failed.(loading := false), false)
  }

  /** `handleSave` and `handleDelete` after their request settles: refetch on
      success, otherwise report `failure` and fetch nothing. */
  function AfterMutation(d: DashState, mutation: Outcome<()>, refetch: Outcome<seq<ClientNote>>, failure: string)
    : (r: Effect)
    ensures mutation.Rejected? ==> r == Effect(d.(error := Some(failure)), false)
    ensures mutation.Resolved? ==> r == AfterFetch(d, refetch)
  {
    if mutation.Rejected? then Effect(d.(error := Some(failure)), false) else AfterFetch(d, refetch)
  }

  /** `note.id` is truthy: present and not 0. */
  predicate HasId(note: ClientNote) {
    note.id.Some? && note.id.value != 0
  }

  /** The request `handleSave` sends for `note`: an update of its id, or a create. */
  function SaveRequest(note: ClientNote): (r: Api.ApiRequest)
    ensures HasId(note) ==> r == Api.UpdateNoteRequest(note.id.value, note.title, note.content)
    ensures !HasId(note) ==> r == Api.CreateNoteRequest(note.title, note.content)
  {
    if HasId(note) then Api.UpdateNoteRequest(note.id.value, note.title, note.content)
    else Api.CreateNoteRequest(note.title, note.content)
  }

  /** Editing a note and saving it updates that very note on the server. */
  lemma EditedNoteUpdatesItsId(current: ClientNote, title: string, content: string)
    requires HasId(current)
    ensures var r := SaveRequest(Edited(Some(current), title, content));
      r.verb == "PUT" && Api.NoteIdOf(r.path) == current.id
      && r.body == Some(map["title" := title, "content" := content])
  {
    Api.NotePathRoundTrip(current.id.value);
  }

  /** A note typed into an editor with no current note is created. */
  lemma FreshNoteIsCreated(title: string, content: string)
    ensures SaveRequest(Edited(None, title, content)).verb == "POST"
    ensures Api.Uri(SaveRequest(Edited(None, title, content))) == "/api/notes"
  {
  }

  /** The session state outside the dashboard after a handler: the stored token
      and the MetaMask adapter. */
  predicate SessionAfter(before: map<string, string>, after: map<string, string>,
                         walletBefore: EthWallet.EthState, walletAfter: EthWallet.EthState, loggedOut: bool)
  {
    if loggedOut then after == before - {Api.TOKEN_KEY} && walletAfter == EthWallet.AfterDisconnect(walletBefore)
    else after == before && walletAfter == walletBefore
  }

  class Dashboard {
    var notes: seq<ClientNote>
    var currentNote: Option<ClientNote>
    var loading: bool
    var error: Option<string>
    var txStatus: Option<TxStatus>
    var authenticated: bool

    function State(): DashState
      reads this
    {
      DashState(notes, currentNote, loading, error, txStatus, authenticated)
    }

    constructor ()
      ensures State() == DashState([], None, true, None, None, true)
    {
      notes, currentNote, loading, error, txStatus, authenticated := [], None, true, None, None, true;
    }

    method HandleLogout(storage: Api.LocalStorage, wallet: EthWallet.Wallet)
      modifies this, storage, wallet
      ensures State() == AfterLogout(old(State()))
      ensures SessionAfter(old(storage.items), storage.items, old(wallet.State()), wallet.State(), true)
    {
      Api.Logout(storage);
      authenticated := false;
      wallet.DisconnectWallet();
    }

    method FetchNotes(reply: Outcome<seq<ClientNote>>, storage: Api.LocalStorage, wallet: EthWallet.Wallet)
      modifies this, storage, wallet
      ensures Effect(State(), Unauthorized(reply)) == AfterFetch(old(State()), reply)
      ensures SessionAfter(old(storage.items), storage.items, old(wallet.State()), wallet.State(), Unauthorized(reply))
    {
      loading := true;
      error := None;
      match reply {
        case Resolved(list) =>
          notes := list;
        case Rejected(e) =>
          error := Some(FETCH_FAILED);
          if e.responseStatus == Some(401) {
            HandleLogout(storage, wallet);
          }
      }
      loading := false;
    }

    /** `handleSave(note)`: the request sent, then the refetch or the error. */
    method HandleSave(note: ClientNote, mutation: Outcome<()>, refetch: Outcome<seq<ClientNote>>,
                      storage: Api.LocalStorage, wallet: EthWallet.Wallet)
      returns (sent: Api.ApiRequest)
      modifies this, storage, wallet
      ensures sent == SaveRequest(note)
      ensures State() == AfterMutation(old(State()), mutation, refetch, SAVE_FAILED).state
      ensures SessionAfter(old(storage.items), storage.items, old(wallet.State()), wallet.State(),
                           AfterMutation(old(State()), mutation, refetch, SAVE_FAILED).loggedOut)
    {
      if HasId(note) {
        sent := Api.UpdateNoteRequest(note.id.value, note.title, note.content);
      } else {
        sent := Api.CreateNoteRequest(note.title, note.content);
      }
      if mutation.Rejected? {
        error := Some(SAVE_FAILED);
      } else {
        FetchNotes(refetch, storage, wallet);
      }
    }

    /** `handleDelete(id)`. */
    method HandleDelete(id: nat, mutation: Outcome<()>, refetch: Outcome<seq<ClientNote>>,
                        storage: Api.LocalStorage, wallet: EthWallet.Wallet)
      returns (sent: Api.ApiRequest)
      modifies this, storage, wallet
      ensures sent == Api.DeleteNoteRequest(id)
      ensures State() == AfterMutation(old(State()), mutation, refetch, DELETE_FAILED).state
      ensures SessionAfter(old(storage.items), storage.items, old(wallet.State()), wallet.State(),
                           AfterMutation(old(State()), mutation, refetch, DELETE_FAILED).loggedOut)
    {
      sent := Api.DeleteNoteRequest(id);
      if mutation.Rejected? {
        error := Some(DELETE_FAILED);
      } else {
        FetchNotes(refetch, storage, wallet);
      }
    }

    /** `sendProofTransaction`: whether a transaction was sent, and to whom. The
        intermediate "pending" statuses are overwritten before the handler ends. */
    method SendProofTransaction(wallet: EthWallet.Wallet, outcome: Outcome<Receipt>)
      returns (sent: bool, recipient: Option<string>)
      modifies this`txStatus
      ensures sent <==> wallet.connected && wallet.signer.Some?
      ensures !sent ==> recipient.None? && txStatus == Some(TxStatus(CONNECT_FIRST, Failed, None))
      ensures sent ==> recipient == wallet.address && txStatus == Some(ProofStatus(outcome))
    {
      if !wallet.connected || wallet.signer.None? {
        txStatus := Some(TxStatus(CONNECT_FIRST, Failed, None));
        return false, None;
      }
      txStatus := Some(TxStatus("Awaiting transaction confirmation in MetaMask...", Pending, None));
      sent, recipient := true, wallet.address;
      txStatus := Some(ProofStatus(outcome));
    }
  }

  /** A 401 on the notes fetch ends the session. */
  lemma UnauthorizedFetchLogsOut(d: DashState, e: JsError)
    requires e.responseStatus == Some(401)
    ensures var r := AfterFetch(d, Rejected(e));
      r.loggedOut && !r.state.authenticated && r.state.error == Some(FETCH_FAILED)
  {
  }

  /** A failed save or delete never triggers a refetch or a logout and keeps the list. */
  lemma FailedMutationKeepsList(d: DashState, e: JsError, refetch: Outcome<seq<ClientNote>>, failure: string)
    ensures var r := AfterMutation(d, Rejected(e), refetch, failure);
      !r.loggedOut && r.state.notes == d.notes && r.state.loading == d.loading
      && r.state.authenticated == d.authenticated
  {
  }

  // ---------------------------------------------------------------------
  // App

  /** `!!localStorage.getItem('token')`. */
  predicate StartsAuthenticated(items: map<string, string>) {
    Truthy(Lookup(items, Api.TOKEN_KEY))
  }

  method InitialAuthenticated(storage: Api.LocalStorage) returns (authenticated: bool)
    ensures authenticated <==> Api.TOKEN_KEY in storage.items && storage.items[Api.TOKEN_KEY] != ""
  {
    var token := storage.GetItem(Api.TOKEN_KEY);
    authenticated := Truthy(token);
  }

  /** After logout a reload starts at the login form; after a login that stored
      a non-empty value it starts at the dashboard. */
  lemma ReloadAfterSession(items: map<string, string>, token: Option<string>)
    ensures !StartsAuthenticated(items - {Api.TOKEN_KEY})
    ensures token != Some("") ==> StartsAuthenticated(items[Api.TOKEN_KEY := Api.Stringified(token)])
  {
  }
}
