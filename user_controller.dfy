/** `UserController.linkWallet`: attach a trimmed wallet address to the caller's row. */
module UserController {
  import opened Common
  import opened Http
  import opened Users

  /** `linkWallet` on table `rows`: the response and the table afterwards. `wallet`
      is the request's `walletAddress`, possibly null. */
  function LinkWalletSpec(rows: seq<User>, principal: string, wallet: Option<string>)
    : (r: (Response, seq<User>))
    ensures wallet.None? || JavaTrim(wallet.value) == [] ==>
              r == (Response(BAD_REQUEST, Fields(map["message" := "Wallet address is required."])), rows)
    ensures wallet.Some? && JavaTrim(wallet.value) != [] && FindByUsername(rows, principal).None? ==>
              r == (Response(NOT_FOUND, Fields(map["message" := "User not found."])), rows)
    ensures r.0.Response? && r.0.status == OK <==> wallet.Some? && JavaTrim(wallet.value) != [] && FindByUsername(rows, principal).Some?
    ensures r.0.Response? && r.0.status == OK ==>
              var k := IndexOfUsername(rows, principal).value;
              var address := JavaTrim(wallet.value);
              r.0.body == Fields(map["message" := "Wallet successfully linked.", "walletAddress" := address])
              && r.1 == rows[k := rows[k].(walletAddress := Some(address))]
  {
    if wallet.None? || JavaTrim(wallet.value) == [] then
      (Response(BAD_REQUEST, Fields(map["message" := "Wallet address is required."])), rows)
    else match IndexOfUsername(rows, principal)
      case None => (Response(NOT_FOUND, Fields(map["message" := "User not found."])), rows)
      case Some(k) =>
        var address := JavaTrim(wallet.value);
        (Response(OK, Fields(map["message" := "Wallet successfully linked.", "walletAddress" := address])),
         rows[k := rows[k].(walletAddress := Some(address))])
  }

  /** Linking changes only the caller's `walletAddress`: every other field of that row,
      including `secondaryWalletAddress`, and every other row stay as they were. */
  lemma LinkChangesOnlyWalletAddress(rows: seq<User>, principal: string, wallet: Option<string>)
    ensures var after := LinkWalletSpec(rows, principal, wallet).1;
      |after| == |rows|
      && forall k :: 0 <= k < |rows| ==>
           after[k].(walletAddress := rows[k].walletAddress) == rows[k]
           && (rows[k].username != principal ==> after[k] == rows[k])
  {
    var after := LinkWalletSpec(rows, principal, wallet).1;
    if after != rows {
      var i := IndexOfUsername(rows, principal).value;
      assert after == rows[i := rows[i].(walletAddress := after[i].walletAddress)];
      assert rows[i].username == principal;
    }
  }

  /** Relinking overwrites: the address stored is the latest one, whatever was linked before,
      and linking the same address twice is linking it once. */
  lemma RelinkOverwrites(rows: seq<User>, principal: string, first: string, second: string)
    requires JavaTrim(first) != [] && JavaTrim(second) != []
    requires FindByUsername(rows, principal).Some?
    ensures var once := LinkWalletSpec(rows, principal, Some(first)).1;
      LinkWalletSpec(once, principal, Some(second)).1 == LinkWalletSpec(rows, principal, Some(second)).1
  {
    var k := IndexOfUsername(rows, principal).value;
    var once := LinkWalletSpec(rows, principal, Some(first)).1;
    assert once[k].username == principal;
    assert forall j :: 0 <= j < k ==> once[j] == rows[j];
    assert IndexOfUsername(once, principal) == Some(k);
  }

  /** Whitespace-only input counts as missing. */
  lemma BlankAddressRejected(rows: seq<User>, principal: string, wallet: string)
    requires forall k :: 0 <= k < |wallet| ==> IsJavaSpace(wallet[k])
    ensures LinkWalletSpec(rows, principal, Some(wallet)).0.status == BAD_REQUEST
  {
    TrimEmptyIff(wallet, IsJavaSpace);
  }

  method LinkWallet(repo: UserRepository, principal: string, wallet: Option<string>)
    returns (response: Response)
    requires repo.Valid()
    modifies repo
    ensures repo.Valid()
    ensures (response, repo.rows) == LinkWalletSpec(old(repo.rows), principal, wallet)
  {
    var body: map<string, string> := map[];
    if wallet.None? || JavaTrim(wallet.value) == [] {
      body := body["message" := "Wallet address is required."];
      return Response(BAD_REQUEST, Fields(body));
    }
    var index := IndexOfUsername(repo.rows, principal);
    if index.Some? {
      var user := repo.rows[index.value];
      user := user.(walletAddress := Some(JavaTrim(wallet.value)));
      repo.Update(index.value, user);
      body := body["message" := "Wallet successfully linked."];
      body := body["walletAddress" := JavaTrim(wallet.value)];
      response := Response(OK, Fields(body));
    } else {
      body := body["message" := "User not found."];
      response := Response(NOT_FOUND, Fields(body));
    }
  }
}
