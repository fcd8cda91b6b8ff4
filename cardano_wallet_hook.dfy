/** `useCardanoWallet` (useCardanoWallet.jsx): the Eternl adapter that connects,
    loads UTxOs through the backend and sends ADA by a build-then-submit round trip. */
module CardanoWalletHook {
  import opened Common

  /** One UTxO as the backend returns it. */
  type Utxo = map<string, string>

  /** The hook's state together with `cardanoApiRef.current`, the enabled wallet API
      identified by an opaque handle. */
  datatype HookState = HookState(
    address: Option<string>,
    connected: bool,
    error: Option<string>,
    utxos: seq<Utxo>,
    txHash: Option<string>,
    api: Option<nat>)

  const INITIAL: HookState := HookState(None, false, None, [], None, None)

  const NOT_DETECTED: string := "Cardano wallet not detected."
  const NO_ADDRESS: string := "Wallet failed to provide a readable address."
  const CONNECT_FAILED: string := "Failed to connect Cardano wallet."
  const NOT_CONNECTED: string := "Connect Cardano wallet first."
  const SEND_FAILED: string := "Failed to send ADA."

  /** The outside world during one connect: whether `window.cardano.eternl`
      exists, and how each awaited call settles. */
  datatype ConnectEnv = ConnectEnv(
    eternl: bool,
    enable: Outcome<nat>,
    changeAddress: Outcome<Option<string>>,
    fetchUtxos: Outcome<seq<Utxo>>)

  /** `connectWallet`: the new state, and whether `eternl.enable()` was called. */
  function AfterConnect(s: HookState, env: ConnectEnv): (r: (HookState, bool))
    ensures !env.eternl ==> r == (s.(error := Some(NOT_DETECTED)), false)
    ensures r.1 <==> env.eternl && s.api.None?
    ensures s.api.Some? ==> r.0.api == s.api
    ensures env.eternl && s.api.None? && env.enable.Rejected? ==>
              r.0 == s.(error := Some(ErrorText(env.enable.error, CONNECT_FAILED)))
    ensures env.eternl && s.api.None? && env.enable.Resolved? ==>
              r.0 == AfterEnable(s.(error := None, api := Some(env.enable.value)), env)
    ensures env.eternl && s.api.Some? ==> r.0 == AfterEnable(s.(error := None), env)
    ensures r.0.connected != s.connected ==> r.0.connected
    ensures r.0.txHash == s.txHash
  {
    var cleared := s.(error := None);
    if !env.eternl then (cleared.(error := Some(NOT_DETECTED)), false)
    else if s.api.None? && env.enable.Rejected? then
      (cleared.(error := Some(ErrorText(env.enable.error, CONNECT_FAILED))), true)
    else
      var enabled := if s.api.None? then cleared.(api := Some(env.enable.value)) else cleared;
      (AfterEnable(enabled, env), s.api.None?)
  }

  /** The part of `connectWallet` after the API is at hand. */
  function AfterEnable(s: HookState, env: ConnectEnv): (r: HookState)
    ensures r.api == s.api && r.txHash == s.txHash
    ensures env.changeAddress.Resolved? && !Truthy(env.changeAddress.value) ==>
              r == s.(error := Some(NO_ADDRESS))
    ensures env.changeAddress.Resolved? && Truthy(env.changeAddress.value) && env.fetchUtxos.Resolved? ==>
              r == s.(address := env.changeAddress.value, connected := true, utxos := env.fetchUtxos.value)
    ensures env.changeAddress.Resolved? && Truthy(env.changeAddress.value) && env.fetchUtxos.Rejected? ==>
              r == s.(address := env.changeAddress.value, connected := true,
                      error := Some(ErrorText(env.fetchUtxos.error, CONNECT_FAILED)))
    ensures env.changeAddress.Rejected? ==>
              r == s.(error := Some(ErrorText(env.changeAddress.error, CONNECT_FAILED)))
  {
    match env.changeAddress
    case Rejected(e) => s.(error := Some(ErrorText(e, CONNECT_FAILED)))
    case Resolved(address) =>
      if !Truthy(address) then s.(error := Some(NO_ADDRESS))
      else
        var shown := s.(address := address, connected := true);
        match env.fetchUtxos
        case Rejected(e) => shown.(error := Some(ErrorText(e, CONNECT_FAILED)))
        case Resolved(list) => shown.(utxos := list)
  }

  function AfterDisconnect(s: HookState): (r: HookState)
    ensures r.address.None? && !r.connected && r.error.None? && r.utxos == [] && r.txHash.None? && r.api.None?
  {
    HookState(None, false, None, [], None, None)
  }

  /** The backend calls `sendAda` makes, in order. */
  datatype BackendCall =
    | BuildUnsigned(sender: Option<string>, recipient: string, amountAda: real)
    | Submit(signedTxHex: Option<string>)
    | FetchUtxos(address: Option<string>)

  /** How each backend call of one `sendAda` settles (response bodies). */
  datatype SendEnv = SendEnv(
    build: Outcome<map<string, string>>,
    submit: Outcome<map<string, string>>,
    refresh: Outcome<seq<Utxo>>)

  /** The new state, the value returned (the hash, or null), and the calls made. */
  datatype SendResult = SendResult(state: HookState, hash: Option<string>, calls: seq<BackendCall>)

  function AfterSend(s: HookState, to: string, amount: real, env: SendEnv): (r: SendResult)
    ensures !s.connected || s.api.None? ==>
              r == SendResult(s.(error := Some(NOT_CONNECTED)), None, [])
    ensures r.state.address == s.address && r.state.connected == s.connected && r.state.api == s.api
    ensures |r.calls| > 0 ==> r.calls[0] == BuildUnsigned(s.address, to, amount)
    ensures |r.calls| > 1 ==> env.build.Resolved? && r.calls[1] == Submit(Lookup(env.build.value, "unsignedTxHex"))
    ensures |r.calls| > 2 ==> r.calls[2] == FetchUtxos(s.address)
    ensures |r.calls| <= 3
    ensures s.connected && s.api.Some? ==> |r.calls| > 0
    ensures |r.calls| == 1 ==> env.build.Rejected? && r.hash.None?
                               && r.state == s.(error := Some(ErrorText(env.build.error, SEND_FAILED)))
    ensures |r.calls| == 2 ==> env.submit.Rejected? && r.hash.None?
                               && r.state == s.(error := Some(ErrorText(env.submit.error, SEND_FAILED)))
    ensures |r.calls| == 3 ==> env.submit.Resolved?
    ensures |r.calls| == 3 && env.refresh.Rejected? ==>
              r.hash.None? && r.state == s.(error := Some(ErrorText(env.refresh.error, SEND_FAILED)))
    ensures |r.calls| == 3 && env.refresh.Resolved? ==>
              r.hash == Lookup(env.submit.value, "txHash")
              && r.state == s.(utxos := env.refresh.value, txHash := r.hash)
    ensures r.hash.Some? ==>
              env.submit.Resolved? && r.hash == Lookup(env.submit.value, "txHash")
              && env.refresh.Resolved? && r.state.utxos == env.refresh.value
              && r.state.txHash == r.hash && r.state.error == s.error
  {
    if !s.connected || s.api.None? then SendResult(s.(error := Some(NOT_CONNECTED)), None, [])
    else
      var build := BuildUnsigned(s.address, to, amount);
      match env.build
      case Rejected(e) => SendResult(s.(error := Some(ErrorText(e, SEND_FAILED))), None, [build])
      case Resolved(built) =>
        var submit := Submit(Lookup(built, "unsignedTxHex"));
        match env.submit
        case Rejected(e) => SendResult(s.(error := Some(ErrorText(e, SEND_FAILED))), None, [build, submit])
        case Resolved(submitted) =>
          var hash := Lookup(submitted, "txHash");
          var fetch := FetchUtxos(s.address);
          match env.refresh
          case Rejected(e) => SendResult(s.(error := Some(ErrorText(e, SEND_FAILED))), None, [build, submit, fetch])
          case Resolved(list) => SendResult(s.(utxos := list, txHash := hash), hash, [build, submit, fetch])
  }

  /** The wallet API is enabled at most once: a second connect reuses it. */
  lemma EnableAtMostOnce(s: HookState, env1: ConnectEnv, env2: ConnectEnv)
    requires env1.eternl && env1.enable.Resolved?
    ensures var (s1, called1) := AfterConnect(s, env1);
      var (s2, called2) := AfterConnect(s1, env2);
      s1.api.Some? && !called2 && s2.api == s1.api
  {
  }

  /** A falsy change address leaves the connection flag and address as they were. */
  lemma FalsyAddressDoesNotConnect(s: HookState, env: ConnectEnv)
    requires env.eternl && (s.api.Some? || env.enable.Resolved?)
    requires env.changeAddress.Resolved? && !Truthy(env.changeAddress.value)
    ensures var r := AfterConnect(s, env).0;
      r.connected == s.connected && r.address == s.address && r.error == Some(NO_ADDRESS)
  {
  }

  /** The address is shown and the flag set before the UTxOs load, so a failed
      UTxO fetch leaves a connected adapter with an error. */
  lemma UtxoFailureStaysConnected(s: HookState, env: ConnectEnv, address: string)
    requires env.eternl && (s.api.Some? || env.enable.Resolved?)
    requires env.changeAddress == Resolved(Some(address)) && address != ""
    requires env.fetchUtxos.Rejected?
    ensures var r := AfterConnect(s, env).0;
      r.connected && r.address == Some(address)
      && r.error == Some(ErrorText(env.fetchUtxos.error, CONNECT_FAILED))
      && r.utxos == s.utxos
  {
  }

  lemma DisconnectIdempotent(s: HookState)
    ensures AfterDisconnect(AfterDisconnect(s)) == AfterDisconnect(s)
    ensures AfterDisconnect(s) == INITIAL
  {
  }

  /** A send returns a hash exactly when all three calls succeed and the submit
      response carries one; any failure sets an error and returns null. */
  lemma SendSucceedsIff(s: HookState, to: string, amount: real, env: SendEnv)
    requires s.connected && s.api.Some?
    ensures var r := AfterSend(s, to, amount, env);
      && (r.hash.Some? <==>
            env.build.Resolved? && env.submit.Resolved? && env.refresh.Resolved?
            && "txHash" in env.submit.value)
      && (env.build.Rejected? || env.submit.Rejected? || env.refresh.Rejected? ==>
            r.hash.None? && r.state.error.Some? && r.state.txHash == s.txHash)
  {
  }

  /** What the build step returned is what is submitted, unchanged. */
  lemma SubmitsBuiltHex(s: HookState, to: string, amount: real, env: SendEnv, hex: string)
    requires s.connected && s.api.Some?
    requires env.build.Resolved? && Lookup(env.build.value, "unsignedTxHex") == Some(hex)
    ensures Submit(Some(hex)) in AfterSend(s, to, amount, env).calls
  {
    assert AfterSend(s, to, amount, env).calls[1] == Submit(Some(hex));
  }

  class CardanoHook {
    var address: Option<string>
    var connected: bool
    var error: Option<string>
    var utxos: seq<Utxo>
    var txHash: Option<string>
    var api: Option<nat>

    function State(): HookState
      reads this
    {
      HookState(address, connected, error, utxos, txHash, api)
    }

    constructor ()
      ensures State() == INITIAL
    {
      address, connected, error, utxos, txHash, api := None, false, None, [], None, None;
    }

    method ConnectWallet(env: ConnectEnv) returns (enableCalled: bool)
      modifies this
      ensures (State(), enableCalled) == AfterConnect(old(State()), env)
    {
      error := None;
      enableCalled := false;
      if !env.eternl {
        error := Some(NOT_DETECTED);
        return;
      }
      if api.None? {
        enableCalled := true;
        match env.enable {
          case Rejected(e) =>
            error := Some(ErrorText(e, CONNECT_FAILED));
            return;
          case Resolved(handle) =>
            api := Some(handle);
        }
      }
      match env.changeAddress {
        case Rejected(e) =>
          error := Some(ErrorText(e, CONNECT_FAILED));
        case Resolved(changeAddress) =>
          if !Truthy(changeAddress) {
            error := Some(NO_ADDRESS);
            return;
          }
          address := changeAddress;
          connected := true;
          match env.fetchUtxos {
            case Rejected(e) =>
              error := Some(ErrorText(e, CONNECT_FAILED));
            case Resolved(list) =>
              utxos := list;
          }
      }
    }

    method DisconnectWallet()
      modifies this
      ensures State() == AfterDisconnect(old(State()))
    {
      address := None;
      connected := false;
      utxos := [];
      txHash := None;
      error := None;
      api := None;
    }

    method SendAda(to: string, amount: real, env: SendEnv)
      returns (hash: Option<string>, calls: seq<BackendCall>)
      modifies this
      ensures SendResult(State(), hash, calls) == AfterSend(old(State()), to, amount, env)
    {
      if !connected || api.None? {
        error := Some(NOT_CONNECTED);
        return None, [];
      }
      calls := [BuildUnsigned(address, to, amount)];
      if env.build.Rejected? {
        error := Some(ErrorText(env.build.error, SEND_FAILED));
        return None, calls;
      }
      var unsignedTxHex := Lookup(env.build.value, "unsignedTxHex");
      var mockSignedTx := unsignedTxHex;
      calls := calls + [Submit(mockSignedTx)];
      if env.submit.Rejected? {
        error := Some(ErrorText(env.submit.error, SEND_FAILED));
        return None, calls;
      }
      var returned := Lookup(env.submit.value, "txHash");
      calls := calls + [FetchUtxos(address)];
      if env.refresh.Rejected? {
        error := Some(ErrorText(env.refresh.error, SEND_FAILED));
        return None, calls;
      }
      utxos := env.refresh.value;
      txHash := returned;
      hash := returned;
    }
  }
}
