/** `useWallet`: the MetaMask adapter. Five pieces of state, changed by connect,
    disconnect and the `accountsChanged` handler. */
module EthWallet {
  import opened Common

  /** Provider and signer are ethers objects, identified here by opaque handles. */
  datatype EthState = EthState(
    provider: Option<nat>,
    signer: Option<nat>,
    address: Option<string>,
    connected: bool,
    error: Option<string>)

  const INITIAL: EthState := EthState(None, None, None, false, None)

  const NOT_DETECTED: string := "MetaMask not detected. Please install it."
  const REJECTED: string := "Connection rejected by user or MetaMask is locked."

  /** How a connect attempt ends: no `window.ethereum`; the account request or
      `getSigner` rejected; or both succeeded. */
  datatype ConnectOutcome =
    | NotInjected
    | Refused
    | Granted(accounts: seq<string>, newProvider: nat, newSigner: nat)

  /** `accounts[0]`, undefined on an empty list. */
  function FirstAccount(accounts: seq<string>): (r: Option<string>)
    ensures r.Some? <==> |accounts| > 0
    ensures r.Some? ==> r.value == accounts[0]
  {
    if |accounts| > 0 then Some(accounts[0]) else None
  }

  function AfterConnect(s: EthState, outcome: ConnectOutcome): (r: EthState)
    ensures r.connected <==> outcome.Granted?
    ensures outcome.Granted? ==>
              r == EthState(Some(outcome.newProvider), Some(outcome.newSigner),
                            FirstAccount(outcome.accounts), true, None)
    ensures outcome.NotInjected? ==> r.error == Some(NOT_DETECTED)
    ensures outcome.Refused? ==> r.error == Some(REJECTED)
    ensures !outcome.Granted? ==>
              r.provider == s.provider && r.signer == s.signer && r.address == s.address
  {
    var cleared := s.(error := None);
    match outcome
    case NotInjected => cleared.(error := Some(NOT_DETECTED), connected := false)
    case Refused => cleared.(error := Some(REJECTED), connected := false)
    case Granted(accounts, p, g) =>
      cleared.(provider := Some(p), signer := Some(g), address := FirstAccount(accounts), connected := true)
  }

  function AfterDisconnect(s: EthState): (r: EthState)
    ensures r.provider.None? && r.signer.None? && r.address.None? && !r.connected && r.error.None?
  {
    EthState(None, None, None, false, None)
  }

  function AfterAccountsChanged(s: EthState, accounts: seq<string>): (r: EthState)
    ensures |accounts| == 0 ==> r == AfterDisconnect(s)
    ensures |accounts| > 0 ==>
              r.address == Some(accounts[0]) && r.connected
              && r.provider == s.provider && r.signer == s.signer && r.error == s.error
  {
    if |accounts| > 0 then s.(address := Some(accounts[0]), connected := true) else AfterDisconnect(s)
  }

  /** A signer is only ever held together with the provider it came from. */
  predicate SignerHasProvider(s: EthState) {
    s.signer.Some? ==> s.provider.Some?
  }

  lemma TransitionsKeepSignerHasProvider(s: EthState, outcome: ConnectOutcome, accounts: seq<string>)
    requires SignerHasProvider(s)
    ensures SignerHasProvider(AfterConnect(s, outcome))
    ensures SignerHasProvider(AfterDisconnect(s))
    ensures SignerHasProvider(AfterAccountsChanged(s, accounts))
  {
  }

  lemma DisconnectIdempotent(s: EthState)
    ensures AfterDisconnect(AfterDisconnect(s)) == AfterDisconnect(s)
    ensures AfterDisconnect(s) == INITIAL
  {
  }

  /** A successful connect does not depend on what came before it: in particular
      an earlier error is gone. */
  lemma GrantedConnectForgetsHistory(s1: EthState, s2: EthState, outcome: ConnectOutcome)
    requires outcome.Granted?
    ensures AfterConnect(s1, outcome) == AfterConnect(s2, outcome)
  {
  }

  /** The `accountsChanged` handler can mark the adapter connected without a signer,
      which is why a caller must check both before sending a transaction. */
  lemma ConnectedWithoutSigner(a: string)
    ensures var s := AfterAccountsChanged(INITIAL, [a]);
      s.connected && s.signer.None? && s.address == Some(a)
  {
  }

  class Wallet {
    var provider: Option<nat>
    var signer: Option<nat>
    var address: Option<string>
    var connected: bool
    var error: Option<string>

    function State(): EthState
      reads this
    {
      EthState(provider, signer, address, connected, error)
    }

    constructor ()
      ensures State() == INITIAL
    {
      provider, signer, address, connected, error := None, None, None, false, None;
    }

    method ConnectWallet(outcome: ConnectOutcome)
      modifies this
      ensures State() == AfterConnect(old(State()), outcome)
    {
      error := None;
      match outcome {
        case NotInjected =>
          error := Some(NOT_DETECTED);
          connected := false;
        case Refused =>
          error := Some(REJECTED);
          connected := false;
        case Granted(accounts, p, g) =>
          provider := Some(p);
          signer := Some(g);
          address := FirstAccount(accounts);
          connected := true;
      }
    }

    method DisconnectWallet()
      modifies this
      ensures State() == AfterDisconnect(old(State()))
    {
      provider := None;
      signer := None;
      address := None;
      connected := false;
      error := None;
    }

    method HandleAccountsChanged(accounts: seq<string>)
      modifies this
      ensures State() == AfterAccountsChanged(old(State()), accounts)
    {
      if |accounts| > 0 {
        address := Some(accounts[0]);
        connected := true;
      } else {
        DisconnectWallet();
      }
    }
  }
}
