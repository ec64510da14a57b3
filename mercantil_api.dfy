/** `Mercantil_Payment_API`: the server-side payment call. A configuration check, a
    required-field check, the acquirer's request body, the endpoint and headers of the
    POST, and the classification of the acquirer's answer into a uniform result.

    The outside world is a `Host` value: the `$_SERVER` array, PHP's IP validation, the
    HTTP transport, the JSON decoder, PHP's loose comparison with 0 and the id `uniqid()`
    returned for this call. `Attempt.sent` records the request handed to the transport,
    so that "nothing was sent" is observable. */
module MercantilApi {
  import opened Prelude
  import opened Text
  import opened Php
  import Enc = MercantilEncryption

  /** The configuration after `wp_parse_args` has laid the caller's values over the
      defaults. */
  datatype Config = Config(
    merchantId: string,
    integratorId: string,
    terminalId: string,
    clientId: string,
    secretKey: string,
    sandbox: bool)

  /** The caller's configuration array; an absent key is `None`. */
  datatype ConfigArgs = ConfigArgs(
    merchantId: Option<string>,
    integratorId: Option<string>,
    terminalId: Option<string>,
    clientId: Option<string>,
    secretKey: Option<string>,
    sandbox: Option<bool>)

  /** `wp_parse_args($config, defaults)`: a given value wins, an absent one takes its
      default (empty ids and secret, integrator and terminal "1", sandbox on). */
  function ParseArgs(args: ConfigArgs): (c: Config)
    ensures args.merchantId.None? ==> c.merchantId == ""
    ensures args.integratorId.None? ==> c.integratorId == "1"
    ensures args.terminalId.None? ==> c.terminalId == "1"
    ensures args.clientId.None? ==> c.clientId == ""
    ensures args.secretKey.None? ==> c.secretKey == ""
    ensures args.sandbox.None? ==> c.sandbox
    ensures args.merchantId.Some? ==> c.merchantId == args.merchantId.value
    ensures args.integratorId.Some? ==> c.integratorId == args.integratorId.value
    ensures args.terminalId.Some? ==> c.terminalId == args.terminalId.value
    ensures args.clientId.Some? ==> c.clientId == args.clientId.value
    ensures args.secretKey.Some? ==> c.secretKey == args.secretKey.value
    ensures args.sandbox.Some? ==> c.sandbox == args.sandbox.value
  {
    Config(
      args.merchantId.GetOr(""),
      args.integratorId.GetOr("1"),
      args.terminalId.GetOr("1"),
      args.clientId.GetOr(""),
      args.secretKey.GetOr(""),
      args.sandbox.GetOr(true))
  }

  /** The configuration check of `process_payment`. */
  predicate ConfigComplete(config: Config) {
    !Empty(config.merchantId) && !Empty(config.clientId) && !Empty(config.secretKey)
  }

  const IncompleteConfigMessage := "Configuración incompleta del gateway"

  // ---------------------------------------------------------------------------------
  // Required fields

  const RequiredFields: seq<string> :=
    ["card_number", "customer_id", "invoice_number", "expiration_date", "cvv", "amount"]

  /** `$data[$key]`; an absent key reads as null, which string functions see as "". */
  function Field(data: map<string, string>, key: string): string {
    if key in data then data[key] else ""
  }

  predicate Missing(data: map<string, string>, key: string) {
    Empty(Field(data, key))
  }

  function MissingFieldMessage(field: string): string {
    "Campo requerido faltante: " + field
  }

  /** The index of the first required field, from position `k` on, that `empty()` rejects. */
  function FirstMissingFrom(data: map<string, string>, k: nat): (r: Option<nat>)
    requires k <= |RequiredFields|
    ensures r.None? <==> forall j :: k <= j < |RequiredFields| ==> !Missing(data, RequiredFields[j])
    ensures r.Some? ==> k <= r.value < |RequiredFields| && Missing(data, RequiredFields[r.value])
    ensures r.Some? ==> forall j :: k <= j < r.value ==> !Missing(data, RequiredFields[j])
    decreases |RequiredFields| - k
  {
    if k == |RequiredFields| then None
    else if Missing(data, RequiredFields[k]) then Some(k)
    else FirstMissingFrom(data, k + 1)
  }

  /** The index of the first missing required field, in the order card_number,
      customer_id, invoice_number, expiration_date, cvv, amount. */
  function FirstMissing(data: map<string, string>): (r: Option<nat>)
    ensures r.None? <==> forall j :: 0 <= j < |RequiredFields| ==> !Missing(data, RequiredFields[j])
    ensures r.Some? ==> r.value < |RequiredFields| && Missing(data, RequiredFields[r.value])
    ensures r.Some? ==> forall j :: 0 <= j < r.value ==> !Missing(data, RequiredFields[j])
  {
    FirstMissingFrom(data, 0)
  }

  datatype Validation = Valid | Invalid(error: string)

  // ---------------------------------------------------------------------------------
  // Client address

  const IpKeys: seq<string> := ["HTTP_X_FORWARDED_FOR", "HTTP_X_REAL_IP", "HTTP_CLIENT_IP", "REMOTE_ADDR"]
  const Loopback := "127.0.0.1"

  /** The address a server variable offers: with a comma, its first comma-separated
      entry, trimmed; without one, the value as it is. */
  function Candidate(value: string): string {
    if ',' in value then Trim(Explode(value, ',')[0]) else value
  }

  predicate Offers(server: map<string, string>, isValidIp: string -> bool, key: string) {
    key in server && !Empty(server[key]) && isValidIp(Candidate(server[key]))
  }

  /** The first server variable, from position `k` of `IpKeys` on, that offers a valid IP. */
  function FirstOfferFrom(server: map<string, string>, isValidIp: string -> bool, k: nat): (r: Option<nat>)
    requires k <= |IpKeys|
    ensures r.None? <==> forall j :: k <= j < |IpKeys| ==> !Offers(server, isValidIp, IpKeys[j])
    ensures r.Some? ==> k <= r.value < |IpKeys| && Offers(server, isValidIp, IpKeys[r.value])
    ensures r.Some? ==> forall j :: k <= j < r.value ==> !Offers(server, isValidIp, IpKeys[j])
    decreases |IpKeys| - k
  {
    if k == |IpKeys| then None
    else if Offers(server, isValidIp, IpKeys[k]) then Some(k)
    else FirstOfferFrom(server, isValidIp, k + 1)
  }

  /** When the variable at `i` offers an address and none between `k` and `i` does, the
      first offer from `k` on is at `i`. */
  lemma {:induction false} FirstOfferAt(server: map<string, string>, isValidIp: string -> bool, k: nat, i: nat)
    requires k <= i < |IpKeys| && Offers(server, isValidIp, IpKeys[i])
    requires forall j :: k <= j < i ==> !Offers(server, isValidIp, IpKeys[j])
    ensures FirstOfferFrom(server, isValidIp, k) == Some(i)
    decreases i - k
  {
    if k < i {
      FirstOfferAt(server, isValidIp, k + 1, i);
    }
  }

  /** The address `get_client_ip` reports: that of the first of X-Forwarded-For,
      X-Real-IP, Client-IP and the connection's address to offer a valid IP, or the
      loopback address when none does. */
  function ClientIp(server: map<string, string>, isValidIp: string -> bool): (ip: string)
    ensures ip == Loopback || isValidIp(ip)
    ensures (forall j :: 0 <= j < |IpKeys| ==> !Offers(server, isValidIp, IpKeys[j])) ==> ip == Loopback
    ensures forall i :: 0 <= i < |IpKeys| && Offers(server, isValidIp, IpKeys[i])
                        && (forall j :: 0 <= j < i ==> !Offers(server, isValidIp, IpKeys[j]))
                        ==> ip == Candidate(server[IpKeys[i]])
  {
    match FirstOfferFrom(server, isValidIp, 0)
    case None => Loopback
    case Some(i) => Candidate(server[IpKeys[i]])
  }

  // ---------------------------------------------------------------------------------
  // Request body

  datatype MerchantIdentify = MerchantIdentify(integratorId: string, merchantId: string, terminalId: string)
  datatype Mobile = Mobile(manufacturer: string, model: string, osVersion: string)
  datatype ClientIdentify = ClientIdentify(ipAddress: string, browserAgent: string, mobile: Mobile)

  /** `number_format(floatval(raw), 2, '.', '')`, kept symbolic: the amount as sent is
      the raw amount rendered with two decimals. */
  datatype Amount = TwoDecimals(raw: string)

  datatype Transaction = Transaction(
    trxType: string,
    paymentMethod: string,
    cardNumber: string,
    customerId: string,
    invoiceNumber: string,
    expirationDate: string,
    cvv: string,
    currency: string,
    amount: Amount)

  datatype RequestBody = RequestBody(
    merchantIdentify: MerchantIdentify,
    clientIdentify: ClientIdentify,
    transaction: Transaction)

  const FixedMobile := Mobile("Generic", "Unknown", "Unknown")
  const DefaultAgent := "WordPress/WooCommerce"

  /** `$_SERVER['HTTP_USER_AGENT'] ?? 'WordPress/WooCommerce'`. */
  function BrowserAgent(server: map<string, string>): string {
    if "HTTP_USER_AGENT" in server then server["HTTP_USER_AGENT"] else DefaultAgent
  }

  /** The expiry as sent: an input that `explode('/')` cuts into exactly two pieces has
      them swapped, "MM/YYYY" becoming "YYYY/MM"; any other input is sent unchanged. */
  function SwapExpiry(expiry: string): (r: string)
    ensures |Explode(expiry, '/')| != 2 ==> r == expiry
    ensures |Explode(expiry, '/')| == 2 ==> r == Explode(expiry, '/')[1] + "/" + Explode(expiry, '/')[0]
  {
    var parts := Explode(expiry, '/');
    if |parts| == 2 then parts[1] + "/" + parts[0] else expiry
  }

  /** Swapping twice restores a two-piece expiry. */
  lemma SwapExpiryTwice(expiry: string)
    requires |Explode(expiry, '/')| == 2
    ensures |Explode(SwapExpiry(expiry), '/')| == 2
    ensures SwapExpiry(SwapExpiry(expiry)) == expiry
  {
    var p := Explode(expiry, '/');
    JoinExplode(expiry, '/');
    assert expiry == p[0] + ['/'] + p[1];
    ExplodeTwo(p[1], p[0], '/');
    assert p[1] + "/" + p[0] == p[1] + ['/'] + p[0];
  }

  /** A well-formed "MM/YYYY" expiry is sent as "YYYY/MM"; for instance "03/2026" is
      sent as "2026/03". */
  lemma SwapExpiryMonthYear(expiry: string)
    requires |expiry| == 7 && expiry[2] == '/' && '/' !in expiry[..2] && '/' !in expiry[3..]
    ensures SwapExpiry(expiry) == expiry[3..] + "/" + expiry[..2]
    ensures SwapExpiry("03/2026") == "2026/03"
  {
    assert expiry == expiry[..2] + ['/'] + expiry[3..];
    ExplodeTwo(expiry[..2], expiry[3..], '/');
    assert "03/2026" == "03" + ['/'] + "2026";
    ExplodeTwo("03", "2026", '/');
  }

  /** `build_request_body`, for the client address `ip` that `get_client_ip` chose. */
  function BuildRequestBody(config: Config, data: map<string, string>, ip: string,
                            server: map<string, string>, crypto: Enc.Crypto): (body: RequestBody)
    ensures body.merchantIdentify == MerchantIdentify(config.integratorId, config.merchantId, config.terminalId)
    ensures body.clientIdentify == ClientIdentify(ip, BrowserAgent(server), FixedMobile)
    ensures var t := body.transaction;
      && t.trxType == "compra" && t.paymentMethod == "tdc" && t.currency == "ves"
      && (forall i :: 0 <= i < |t.cardNumber| ==> !IsSpace(t.cardNumber[i]))
      && (forall c :: c in t.cardNumber <==> c in Field(data, "card_number") && !IsSpace(c))
      && t.customerId == Field(data, "customer_id")
      && t.invoiceNumber == Field(data, "invoice_number")
      && t.expirationDate == SwapExpiry(Field(data, "expiration_date"))
      && t.cvv == Enc.EncryptData(crypto, Field(data, "cvv"), config.secretKey)
      && t.amount == TwoDecimals(Field(data, "amount"))
  {
    RequestBody(
      MerchantIdentify(config.integratorId, config.merchantId, config.terminalId),
      ClientIdentify(ip, BrowserAgent(server), FixedMobile),
      Transaction(
        "compra",
        "tdc",
        StripSpaces(Field(data, "card_number")),
        Field(data, "customer_id"),
        Field(data, "invoice_number"),
        SwapExpiry(Field(data, "expiration_date")),
        Enc.EncryptData(crypto, Field(data, "cvv"), config.secretKey),
        "ves",
        TwoDecimals(Field(data, "amount"))))
  }

  // ---------------------------------------------------------------------------------
  // Transport

  const SandboxEndpoint := "https://apimbu.mercantilbanco.com/mercantil-banco/sandbox/v1/payment/pay"
  const ProductionEndpoint := "https://apimbu.mercantilbanco.com/mercantil-banco/production/v1/payment/pay"

  /** The arguments of `wp_remote_post`; the body is what `json_encode` serialises. */
  datatype HttpRequest = HttpRequest(
    endpoint: string,
    httpMethod: string,
    headers: map<string, string>,
    body: RequestBody,
    timeout: int)

  datatype HttpResponse =
    | TransportError(message: string)      // a WP_Error
    | Reply(status: int, body: string)

  /** The request `send_request` hands to the transport. */
  function SendArgs(config: Config, body: RequestBody): (req: HttpRequest)
    ensures req.endpoint == SandboxEndpoint <==> config.sandbox
    ensures req.endpoint == ProductionEndpoint <==> !config.sandbox
    ensures req.httpMethod == "POST" && req.timeout == 30 && req.body == body
    ensures req.headers.Keys == {"Content-Type", "X-IBM-Client-ID"}
    ensures req.headers["Content-Type"] == "application/json"
    ensures req.headers["X-IBM-Client-ID"] == config.clientId
  {
    HttpRequest(
      if config.sandbox then SandboxEndpoint else ProductionEndpoint,
      "POST",
      map["Content-Type" := "application/json", "X-IBM-Client-ID" := config.clientId],
      body,
      30)
  }

  // ---------------------------------------------------------------------------------
  // Result

  /** The array `process_payment` returns: `success` true with the decoded body and a
      transaction id, or `success` false with a message, a code and, for answers of the
      acquirer, the HTTP status. */
  datatype ApiResult =
    | Approved(data: map<string, Json>, transactionId: Json)
    | Declined(errorMessage: Json, errorCode: Json, httpStatus: Option<int>)

  datatype Host = Host(
    server: map<string, string>,                       // $_SERVER
    isValidIp: string -> bool,                         // filter_var($ip, FILTER_VALIDATE_IP)
    post: HttpRequest -> HttpResponse,                 // wp_remote_post
    jsonDecode: string -> Option<map<string, Json>>,   // json_decode($body, true); None when not an array
    looselyZero: Json -> bool,                         // $value == 0
    uniqid: string)                                    // uniqid()

  /** The facts assumed about the host: `uniqid()` is never empty, and an integer is
      loosely equal to 0 exactly when it is 0. */
  ghost predicate HostLaws(host: Host) {
    |host.uniqid| > 0 && forall n :: host.looselyZero(JInt(n)) <==> n == 0
  }

  const DefaultDecline := "Error en el procesamiento del pago"

  /** `isset($data['error_code']) && $data['error_code'] == 0`. */
  predicate CodeIsZero(host: Host, data: Option<map<string, Json>>) {
    Lookup(data, "error_code").Some? && host.looselyZero(Lookup(data, "error_code").value)
  }

  /** `handle_response`. */
  function HandleResponse(response: HttpResponse, host: Host): (r: ApiResult)
    ensures response.TransportError? ==>
      r == Declined(JString("Error de conexión: " + response.message), JString("CONNECTION_ERROR"), None)
    ensures r.Approved? <==>
      response.Reply? && response.status == 200 && CodeIsZero(host, host.jsonDecode(response.body))
    ensures r.Approved? ==>
      var data := host.jsonDecode(response.body);
      data == Some(r.data) && r.transactionId == Coalesce(Lookup(data, "transaction_id"), JString(host.uniqid))
    ensures response.Reply? && r.Declined? ==>
      var data := host.jsonDecode(response.body);
      && r.errorMessage == Coalesce(Lookup(data, "error_message"), JString(DefaultDecline))
      && r.errorCode == Coalesce(Lookup(data, "error_code"), JString("UNKNOWN_ERROR"))
      && r.httpStatus == Some(response.status)
  {
    match response
    case TransportError(message) =>
      Declined(JString("Error de conexión: " + message), JString("CONNECTION_ERROR"), None)
    case Reply(status, body) =>
      var data := host.jsonDecode(body);
      if status == 200 && CodeIsZero(host, data) then
        Approved(data.value, Coalesce(Lookup(data, "transaction_id"), JString(host.uniqid)))
      else
        Declined(
          Coalesce(Lookup(data, "error_message"), JString(DefaultDecline)),
          Coalesce(Lookup(data, "error_code"), JString("UNKNOWN_ERROR")),
          Some(status))
  }

  /** An approval always carries a transaction id: the body's, or the generated one. */
  lemma ApprovalHasTransactionId(response: HttpResponse, host: Host)
    requires HostLaws(host)
    requires HandleResponse(response, host).Approved?
    ensures HandleResponse(response, host).transactionId != JNull
    ensures HandleResponse(response, host).transactionId != JString("")
            || Lookup(host.jsonDecode(response.body), "transaction_id") == Some(JString(""))
  {
  }

  /** Sample answers: 200 with code 0 and id "T1" approves with "T1"; 200 with code 5
      and a message declines with both; 503 with an undecodable body declines with the
      default message and code. */
  lemma ResponseExamples(host: Host)
    requires HostLaws(host)
    requires host.jsonDecode("ok") == Some(map["error_code" := JInt(0), "transaction_id" := JString("T1")])
    requires host.jsonDecode("declined") == Some(map["error_code" := JInt(5), "error_message" := JString("declined")])
    requires host.jsonDecode("garbage") == None
    ensures HandleResponse(Reply(200, "ok"), host).Approved?
    ensures HandleResponse(Reply(200, "ok"), host).transactionId == JString("T1")
    ensures HandleResponse(Reply(200, "declined"), host) == Declined(JString("declined"), JInt(5), Some(200))
    ensures HandleResponse(Reply(503, "garbage"), host) == Declined(JString(DefaultDecline), JString("UNKNOWN_ERROR"), Some(503))
  {
    assert host.looselyZero(JInt(0));
    assert !host.looselyZero(JInt(5));
  }

  // ---------------------------------------------------------------------------------
  // The whole call

  datatype Attempt = Attempt(result: ApiResult, sent: Option<HttpRequest>)

  /** What `process_payment` does for a configuration, a payment array and a host. */
  function Outcome(config: Config, data: map<string, string>, crypto: Enc.Crypto, host: Host): (a: Attempt)
    ensures a.sent.Some? <==> ConfigComplete(config) && FirstMissing(data).None?
    ensures !ConfigComplete(config) ==>
      a.result == Declined(JString("Error interno: " + IncompleteConfigMessage), JString("EXCEPTION"), None)
    ensures ConfigComplete(config) && FirstMissing(data).Some? ==>
      a.result == Declined(JString(MissingFieldMessage(RequiredFields[FirstMissing(data).value])),
                           JString("VALIDATION_ERROR"), None)
    ensures a.sent.Some? ==>
      && a.sent.value == SendArgs(config, BuildRequestBody(config, data, ClientIp(host.server, host.isValidIp), host.server, crypto))
      && a.result == HandleResponse(host.post(a.sent.value), host)
  {
    if !ConfigComplete(config) then
      Attempt(Declined(JString("Error interno: " + IncompleteConfigMessage), JString("EXCEPTION"), None), None)
    else
      match FirstMissing(data)
      case Some(i) =>
        Attempt(Declined(JString(MissingFieldMessage(RequiredFields[i])), JString("VALIDATION_ERROR"), None), None)
      case None =>
        var body := BuildRequestBody(config, data, ClientIp(host.server, host.isValidIp), host.server, crypto);
        var request := SendArgs(config, body);
        Attempt(HandleResponse(host.post(request), host), Some(request))
  }

  /** Every failure `process_payment` reports carries a machine-readable code. */
  lemma DeclineHasCode(config: Config, data: map<string, string>, crypto: Enc.Crypto, host: Host)
    requires Outcome(config, data, crypto, host).result.Declined?
    ensures Outcome(config, data, crypto, host).result.errorCode != JNull
  {
  }

  /** Once the checks pass, the CVV is sent as "" only when the cipher refuses it: the
      secret and the CVV are already known to be non-empty. */
  lemma SentCvvEmptyIffCipherFails(config: Config, data: map<string, string>, crypto: Enc.Crypto, host: Host)
    requires Enc.Lawful(crypto)
    requires Outcome(config, data, crypto, host).sent.Some?
    ensures var cvv := Outcome(config, data, crypto, host).sent.value.body.transaction.cvv;
      cvv == "" <==> crypto.aesEncrypt(Enc.CreateKeyHash(crypto, config.secretKey).value, Field(data, "cvv")).None?
  {
    assert !Missing(data, RequiredFields[4]);
    Enc.EncryptDataEmptyIff(crypto, Field(data, "cvv"), config.secretKey);
  }

  /** The API checks only that the customer id is present: an id without its V/E
      prefix such as "12345" still reaches the transport. */
  lemma UnprefixedCustomerIdIsSent(config: Config, data: map<string, string>, crypto: Enc.Crypto, host: Host)
    requires ConfigComplete(config)
    requires forall j :: 0 <= j < |RequiredFields| ==> !Missing(data, RequiredFields[j])
    requires Field(data, "customer_id") == "12345"
    ensures Outcome(config, data, crypto, host).sent.Some?
    ensures Outcome(config, data, crypto, host).sent.value.body.transaction.customerId == "12345"
  {
  }

  /** `Mercantil_Payment_API`; the configuration is fixed by the constructor. */
  class PaymentApi {
    const config: Config

    constructor (args: ConfigArgs)
      ensures config == ParseArgs(args)
    {
      config := ParseArgs(args);
    }

    /** `validate_payment_data`: stops at the first missing required field. */
    method ValidatePaymentData(data: map<string, string>) returns (v: Validation)
      ensures v.Valid? <==> FirstMissing(data).None?
      ensures v.Invalid? ==> v.error == MissingFieldMessage(RequiredFields[FirstMissing(data).value])
    {
      var i := 0;
      while i < |RequiredFields|
        invariant 0 <= i <= |RequiredFields|
        invariant forall j :: 0 <= j < i ==> !Missing(data, RequiredFields[j])
      {
        var field := RequiredFields[i];
        if Empty(Field(data, field)) {
          return Invalid(MissingFieldMessage(field));
        }
        i := i + 1;
      }
      return Valid;
    }

    /** `get_client_ip`. */
    method GetClientIp(server: map<string, string>, isValidIp: string -> bool) returns (ip: string)
      ensures ip == ClientIp(server, isValidIp)
    {
      var i := 0;
      while i < |IpKeys|
        invariant 0 <= i <= |IpKeys|
        invariant forall j :: 0 <= j < i ==> !Offers(server, isValidIp, IpKeys[j])
      {
        var key := IpKeys[i];
        if key in server && !Empty(server[key]) {
          var candidate := Candidate(server[key]);
          if isValidIp(candidate) {
            FirstOfferAt(server, isValidIp, 0, i);
            return candidate;
          }
        }
        i := i + 1;
      }
      return Loopback;
    }

    /** `process_payment`. */
    method ProcessPayment(data: map<string, string>, crypto: Enc.Crypto, host: Host) returns (a: Attempt)
      ensures a == Outcome(config, data, crypto, host)
    {
      if Empty(config.merchantId) || Empty(config.clientId) || Empty(config.secretKey) {
        return Attempt(Declined(JString("Error interno: " + IncompleteConfigMessage), JString("EXCEPTION"), None), None);
      }
      var validation := ValidatePaymentData(data);
      if validation.Invalid? {
        return Attempt(Declined(JString(validation.error), JString("VALIDATION_ERROR"), None), None);
      }
      var ip := GetClientIp(host.server, host.isValidIp);
      var body := BuildRequestBody(config, data, ip, host.server, crypto);
      var request := SendArgs(config, body);
      var response := host.post(request);
      return Attempt(HandleResponse(response, host), Some(request));
    }
  }
}
