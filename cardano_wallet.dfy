/** The hook exported by cardanoWallet.js: detects one of three CIP-30 wallet
    extensions, connects to it and reads its first used address. */
module CardanoWallet {
  import opened Common

  /** The extensions looked for, in order of preference. */
  const CARDANO_WALLETS: seq<string> := ["eternl", "nami", "flint"]

  const NO_CARDANO: string := "No Cardano wallet detected. Please install a wallet extension."
  const NONE_SUPPORTED: string := "No supported Cardano wallet found. Install Eternl, Nami, or Flint."
  const NO_ADDRESSES: string := "No addresses found in wallet."
  const CANCELED: string := "Connection canceled by user."
  const CONNECT_FAILED: string := "Failed to connect wallet."

  /** `wallet` is the detected extension object, identified by an opaque handle;
      the empty string plays the role of the hook's initial ''. */
  datatype AdapterState = AdapterState(
    wallet: Option<nat>,
    walletName: string,
    connected: bool,
    address: string,
    error: string)

  const INITIAL: AdapterState := AdapterState(None, "", false, "", "")

  /** The index of the first of `names` that is injected. */
  function FirstPresent(names: seq<string>, injected: map<string, nat>): (r: Option<nat>)
    ensures r.None? <==> forall j :: 0 <= j < |names| ==> names[j] !in injected
    ensures r.Some? ==> r.value < |names| && names[r.value] in injected
    ensures r.Some? ==> forall j :: 0 <= j < r.value ==> names[j] !in injected
  {
    if |names| == 0 then None
    else if names[0] in injected then Some(0)
    else match FirstPresent(names[1..], injected)
      case None => None
      case Some(k) => Some(k + 1)
  }

  /** `detectWallet` on `window.cardano` (absent, or a table of injected extensions):
      the new state and the extension returned. */
  function AfterDetect(s: AdapterState, cardano: Option<map<string, nat>>): (r: (AdapterState, Option<nat>))
    ensures cardano.None? ==> r == (s.(error := NO_CARDANO), None)
    ensures r.1.Some? <==> cardano.Some? && exists k :: 0 <= k < |CARDANO_WALLETS| && CARDANO_WALLETS[k] in cardano.value
    ensures r.1.None? && cardano.Some? ==> r.0 == s.(error := NONE_SUPPORTED)
    ensures r.1.Some? ==>
              r.0.walletName in CARDANO_WALLETS && r.0.walletName in cardano.value
              && r.1 == r.0.wallet == Some(cardano.value[r.0.walletName])
              && r.0.error == "" && r.0.connected == s.connected && r.0.address == s.address
  {
    match cardano
    case None => (s.(error := NO_CARDANO), None)
    case Some(injected) =>
      match FirstPresent(CARDANO_WALLETS, injected)
      case None => (s.(error := NONE_SUPPORTED), None)
      case Some(k) =>
        var name := CARDANO_WALLETS[k];
        (s.(wallet := Some(injected[name]), walletName := name, error := ""), Some(injected[name]))
  }

  /** Eternl wins over Nami, and Nami over Flint. */
  lemma DetectionOrder(s: AdapterState, injected: map<string, nat>)
    requires "eternl" in injected || "nami" in injected || "flint" in injected
    ensures var name := AfterDetect(s, Some(injected)).0.walletName;
      && ("eternl" in injected ==> name == "eternl")
      && ("eternl" !in injected && "nami" in injected ==> name == "nami")
      && ("eternl" !in injected && "nami" !in injected ==> name == "flint")
  {
    var k := FirstPresent(CARDANO_WALLETS, injected);
    assert CARDANO_WALLETS[0] == "eternl" && CARDANO_WALLETS[1] == "nami" && CARDANO_WALLETS[2] == "flint";
    if "eternl" in injected {
      assert k == Some(0);
    } else if "nami" in injected {
      assert k == Some(1);
    } else {
      assert k == Some(2);
    }
  }

  /** The error text of a failed enable or address request. */
  function ConnectErrorText(e: JsError): (r: string)
    ensures e.code == Some(-3) ==> r == CANCELED
    ensures e.info.Some? && Contains(e.info.value, "user canceled") ==> r == CANCELED
    ensures e.code != Some(-3) && !(e.info.Some? && Contains(e.info.value, "user canceled")) ==>
              r == OrElse(e.message, CONNECT_FAILED)
  {
    if e.code == Some(-3) || (e.info.Some? && Contains(e.info.value, "user canceled")) then CANCELED
    else OrElse(e.message, CONNECT_FAILED)
  }

  /** `connectWallet`: the new state and the extension whose `enable()` was called. */
  function AfterConnect(s: AdapterState, cardano: Option<map<string, nat>>,
                        enable: Outcome<nat>, addresses: Outcome<seq<string>>)
    : (r: (AdapterState, Option<nat>))
    ensures s.wallet.Some? ==> r.1 == s.wallet && r.0.wallet == s.wallet && r.0.walletName == s.walletName
    ensures s.wallet.None? ==> r.1 == AfterDetect(s.(error := ""), cardano).1
    ensures s.wallet.None? && r.1.Some? ==>
              r.0.wallet == r.1 && r.0.walletName == AfterDetect(s.(error := ""), cardano).0.walletName
    ensures r.1.None? ==> r.0 == AfterDetect(s.(error := ""), cardano).0
    ensures r.1.Some? && enable.Resolved? ==> r.0.connected
    ensures r.1.Some? && enable.Resolved? && addresses.Resolved? && |addresses.value| > 0 ==>
              r.0.address == addresses.value[0] && r.0.error == ""
    ensures r.1.Some? && enable.Resolved? && addresses.Resolved? && |addresses.value| == 0 ==>
              r.0.address == s.address && r.0.error == NO_ADDRESSES
    ensures r.1.Some? && enable.Resolved? && addresses.Rejected? ==>
              r.0.connected && r.0.address == s.address && r.0.error == ConnectErrorText(addresses.error)
    ensures r.1.Some? && enable.Rejected? && s.wallet.Some? ==>
              r.0 == s.(error := ConnectErrorText(enable.error))
    ensures r.1.Some? && enable.Rejected? && s.wallet.None? ==>
              r.0 == AfterDetect(s.(error := ""), cardano).0.(error := ConnectErrorText(enable.error))
    ensures r.1.Some? && enable.Rejected? ==>
              r.0.connected == s.connected && r.0.address == s.address && r.0.error == ConnectErrorText(enable.error)
  {
    var cleared := s.(error := "");
    var (found, detected) := if s.wallet.Some? then (cleared, s.wallet) else AfterDetect(cleared, cardano);
    if detected.None? then (found, None)
    else match enable
      case Rejected(e) => (found.(error := ConnectErrorText(e)), detected)
      case Resolved(_) =>
        var enabled := found.(connected := true);
        match addresses
        case Rejected(e) => (enabled.(error := ConnectErrorText(e)), detected)
        case Resolved(list) =>
          if |list| > 0 then (enabled.(address := list[0]), detected)
          else (enabled.(error := NO_ADDRESSES), detected)
  }

  function AfterDisconnect(s: AdapterState): (r: AdapterState)
    ensures !r.connected && r.address == "" && r.error == ""
    ensures r.wallet == s.wallet && r.walletName == s.walletName
  {
    s.(connected := false, address := "", error := "")
  }

  lemma DisconnectIdempotent(s: AdapterState)
    ensures AfterDisconnect(AfterDisconnect(s)) == AfterDisconnect(s)
  {
  }

  /** Once an extension has been detected, connecting again and again talks to that
      same extension, whatever `window.cardano` holds by then. */
  lemma ConnectKeepsDetectedWallet(s: AdapterState, c1: Option<map<string, nat>>, c2: Option<map<string, nat>>,
                                   e1: Outcome<nat>, e2: Outcome<nat>, a1: Outcome<seq<string>>, a2: Outcome<seq<string>>)
    requires AfterConnect(s, c1, e1, a1).1.Some?
    ensures var s1 := AfterConnect(s, c1, e1, a1).0;
      AfterConnect(s1, c2, e2, a2).1 == AfterConnect(s, c1, e1, a1).1
  {
  }

  class Adapter {
    var wallet: Option<nat>
    var walletName: string
    var connected: bool
    var address: string
    var error: string

    function State(): AdapterState
      reads this
    {
      AdapterState(wallet, walletName, connected, address, error)
    }

    constructor ()
      ensures State() == INITIAL
    {
      wallet, walletName, connected, address, error := None, "", false, "", "";
    }

    method DetectWallet(cardano: Option<map<string, nat>>) returns (found: Option<nat>)
      modifies this
      ensures (State(), found) == AfterDetect(old(State()), cardano)
    {
      if cardano.None? {
        error := NO_CARDANO;
        return None;
      }
      var injected := cardano.value;
      var i := 0;
      while i < |CARDANO_WALLETS|
        invariant 0 <= i <= |CARDANO_WALLETS|
        invariant forall j :: 0 <= j < i ==> CARDANO_WALLETS[j] !in injected
        invariant State() == old(State())
      {
        var name := CARDANO_WALLETS[i];
        if name in injected {
          wallet := Some(injected[name]);
          walletName := name;
          error := "";
          return Some(injected[name]);
        }
        i := i + 1;
      }
      error := NONE_SUPPORTED;
      return None;
    }

    method ConnectWallet(cardano: Option<map<string, nat>>, enable: Outcome<nat>, addresses: Outcome<seq<string>>)
      returns (enabled: Option<nat>)
      modifies this
      ensures (State(), enabled) == AfterConnect(old(State()), cardano, enable, addresses)
    {
      error := "";
      var detected := wallet;
      if detected.None? {
        detected := DetectWallet(cardano);
      }
      enabled := detected;
      if detected.None? {
        return;
      }
      match enable {
        case Rejected(e) =>
          error := ConnectErrorText(e);
        case Resolved(_) =>
          connected := true;
          match addresses {
            case Rejected(e) =>
              error := ConnectErrorText(e);
            case Resolved(list) =>
              if |list| > 0 {
                address := list[0];
              } else {
                error := NO_ADDRESSES;
              }
          }
      }
    }

    method DisconnectWallet()
      modifies this
      ensures State() == AfterDisconnect(old(State()))
    {
      connected := false;
      address := "";
      error := "";
    }
  }
}
