/** `CardanoController`: request guards and the mapping of `CardanoService`
    results and exceptions to HTTP responses. The service itself is a parameter. */
module CardanoController {
  import opened Common
  import opened Http

  /** An exception thrown by the service: whether it is an
      `UnsupportedOperationException`, and its `getMessage()`, possibly null. */
  datatype Thrown = Thrown(unsupported: bool, message: Option<string>)

  /** How a call into the service ends. */
  datatype Call<+T> = Returned(value: T) | Threw(exception: Thrown)

  /** The three service operations the controller calls. */
  datatype Service = Service(
    utxos: string -> Call<seq<map<string, string>>>,
    build: (string, string, real) -> Call<string>,
    submit: string -> Call<map<string, string>>)

  /** The body of `POST /api/cardano/build-unsigned-tx`. */
  datatype TxRequest = TxRequest(senderAddress: string, recipientAddress: string, amountAda: real)

  /** `Map.of` refuses a null value; inside a catch block the resulting
      `NullPointerException` escapes the handler. */
  const NULL_POINTER: string := "NullPointerException"

  /** The 500/501 body built from an exception's message. */
  function ErrorBody(status: int, text: string, e: Thrown): (r: Response)
    ensures e.message.None? <==> r.Raised?
    ensures e.message.Some? ==>
              r.Response? && r.status == status
              && r.body == Fields(map["message" := text, "error" := e.message.value])
  {
    match e.message
    case None => Raised(NULL_POINTER)
    case Some(m) => Response(status, Fields(map["message" := text, "error" := m]))
  }

  /** `GET /api/cardano/utxos?address=…`. */
  function GetUtxos(service: Service, address: string): (r: Response)
    ensures service.utxos(address).Returned? <==> r.Response? && r.status == OK
    ensures service.utxos(address).Returned? ==> r.body == Rows(service.utxos(address).value)
    ensures service.utxos(address).Threw? ==>
              r == ErrorBody(INTERNAL_SERVER_ERROR, "Failed to fetch UTxOs", service.utxos(address).exception)
  {
    match service.utxos(address)
    case Returned(list) => Response(OK, Rows(list))
    case Threw(e) => ErrorBody(INTERNAL_SERVER_ERROR, "Failed to fetch UTxOs", e)
  }

  /** `POST /api/cardano/build-unsigned-tx`. */
  function BuildTx(service: Service, request: TxRequest): (r: Response)
    ensures var outcome := service.build(request.senderAddress, request.recipientAddress, request.amountAda);
      && (outcome.Returned? <==> r.Response? && r.status == OK)
      && (outcome.Returned? ==> r.body == Fields(map["unsignedTxHex" := outcome.value]))
      && (outcome.Threw? && outcome.exception.unsupported ==>
            r == ErrorBody(NOT_IMPLEMENTED, "Transaction building not implemented on the server.", outcome.exception))
      && (outcome.Threw? && !outcome.exception.unsupported ==>
            r == ErrorBody(INTERNAL_SERVER_ERROR, "Failed to build transaction", outcome.exception))
  {
    match service.build(request.senderAddress, request.recipientAddress, request.amountAda)
    case Returned(hex) => Response(OK, Fields(map["unsignedTxHex" := hex]))
    case Threw(e) =>
      if e.unsupported then ErrorBody(NOT_IMPLEMENTED, "Transaction building not implemented on the server.", e)
      else ErrorBody(INTERNAL_SERVER_ERROR, "Failed to build transaction", e)
  }

  /** `POST /api/cardano/submit-tx`: the response and the hex handed to the
      service, if it was called at all. */
  function SubmitTx(service: Service, body: map<string, string>): (r: (Response, Option<string>))
    ensures r.1.None? <==> "signedTxHex" !in body || body["signedTxHex"] == ""
    ensures r.1.None? ==>
              r.0 == Response(BAD_REQUEST, Fields(map["message" := "Signed transaction hex is required."]))
    ensures r.1.Some? ==> r.1.value == body["signedTxHex"]
    ensures r.1.Some? && service.submit(r.1.value).Returned? ==>
              r.0 == Response(OK, Fields(service.submit(r.1.value).value))
    ensures r.1.Some? && service.submit(r.1.value).Threw? ==>
              r.0 == ErrorBody(INTERNAL_SERVER_ERROR, "Failed to submit transaction", service.submit(r.1.value).exception)
  {
    if "signedTxHex" !in body || body["signedTxHex"] == "" then
      (Response(BAD_REQUEST, Fields(map["message" := "Signed transaction hex is required."])), None)
    else
      var hex := body["signedTxHex"];
      match service.submit(hex)
      case Returned(result) => (Response(OK, Fields(result)), Some(hex))
      case Threw(e) => (ErrorBody(INTERNAL_SERVER_ERROR, "Failed to submit transaction", e), Some(hex))
  }

  /** A build answer of 200 carries exactly one key. */
  lemma BuildTxSingleKey(service: Service, request: TxRequest)
    requires BuildTx(service, request).Response? && BuildTx(service, request).status == OK
    ensures BuildTx(service, request).body.Fields?
    ensures BuildTx(service, request).body.fields.Keys == {"unsignedTxHex"}
  {
  }

  /** Which service the controller talks to does not matter to a request the guard
      rejects: the answer is 400 and no service operation is reached. */
  lemma SubmitGuardIndependentOfService(s1: Service, s2: Service, body: map<string, string>)
    requires "signedTxHex" !in body || body["signedTxHex"] == ""
    ensures SubmitTx(s1, body) == SubmitTx(s2, body)
    ensures SubmitTx(s1, body).0.status == BAD_REQUEST
  {
  }

  /** Each status the controller itself answers with names the exception class. */
  lemma ErrorStatusesDistinguishExceptions(service: Service, request: TxRequest)
    requires service.build(request.senderAddress, request.recipientAddress, request.amountAda).Threw?
    requires BuildTx(service, request).Response?
    ensures BuildTx(service, request).status == NOT_IMPLEMENTED
            <==> service.build(request.senderAddress, request.recipientAddress, request.amountAda).exception.unsupported
  {
  }
}
