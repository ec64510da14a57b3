/** `WC_Mercantil_Gateway`: the WooCommerce payment method. `validate_fields` checks the
    posted card fields before the order is placed; `process_payment` assembles the
    payment array and the API configuration, calls `Mercantil_Payment_API` and settles
    the order on its result. */
module WcMercantilGateway {
  import opened Prelude
  import opened Php
  import Text
  import Patterns
  import Enc = MercantilEncryption
  import Api = MercantilApi

  const CardKey := "mercantil_card_number"
  const ExpiryKey := "mercantil_card_expiry"
  const CvcKey := "mercantil_card_cvc"
  const HolderKey := "mercantil_card_holder"

  /** `$_POST[$key] ?? ''`; the value is taken as `sanitize_text_field` left it. */
  function Posted(post: map<string, string>, key: string): string {
    if key in post then post[key] else ""
  }

  /** What `sanitize_text_field` guarantees of its result: it turns every run of tabs,
      line feeds, carriage returns and spaces into one space and then trims, so no tab,
      line feed or carriage return is left, no two spaces follow each other and no space
      starts or ends the text. */
  predicate Sanitized(s: string) {
    && (forall i :: 0 <= i < |s| ==> s[i] != '\t' && s[i] != '\n' && s[i] != '\r')
    && (forall i :: 0 <= i < |s| - 1 ==> !(s[i] == ' ' && s[i + 1] == ' '))
    && (s == [] || (s[0] != ' ' && s[|s| - 1] != ' '))
  }

  /** The four card fields as the gateway reads them, each through `sanitize_text_field`. */
  predicate SanitizedPost(post: map<string, string>) {
    && Sanitized(Posted(post, CardKey)) && Sanitized(Posted(post, ExpiryKey))
    && Sanitized(Posted(post, CvcKey)) && Sanitized(Posted(post, HolderKey))
  }

  // ---------------------------------------------------------------------------------
  // validate_fields

  const CardNotice := "El número de tarjeta es requerido"
  const ExpiryNotice := "Fecha de expiración inválida. Use MM/AAAA"
  const CvvNotice := "CVV inválido"
  const CedulaNotice := "Cédula inválida. Use formato V12345678"
  const Notices: seq<string> := [CardNotice, ExpiryNotice, CvvNotice, CedulaNotice]

  /** Check `i` of `validate_fields`: 0 the card number is present, 1 the expiry, 2 the
      CVV and 3 the cédula are present and match their patterns. */
  predicate Passes(post: map<string, string>, i: nat)
    requires i < 4
  {
    if i == 0 then !Empty(Posted(post, CardKey))
    else if i == 1 then !Empty(Posted(post, ExpiryKey)) && PregMatches(Patterns.Expiry, Posted(post, ExpiryKey))
    else if i == 2 then !Empty(Posted(post, CvcKey)) && PregMatches(Patterns.Cvv, Posted(post, CvcKey))
    else !Empty(Posted(post, HolderKey)) && PregMatches(Patterns.CedulaAnyCase, Posted(post, HolderKey))
  }

  /** The answer of `validate_fields`: true, or false with the one notice it added. */
  datatype Verdict = Accepted | Rejected(notice: string)

  /** `validate_fields`: the checks in the order card, expiry, CVV, cédula; the first that
      fails adds its notice and ends the validation. */
  function ValidateFields(post: map<string, string>): (r: Verdict)
    ensures r.Accepted? <==> forall i :: 0 <= i < 4 ==> Passes(post, i)
    ensures forall i :: 0 <= i < 4 && !Passes(post, i) && (forall j :: 0 <= j < i ==> Passes(post, j))
                        ==> r == Rejected(Notices[i])
  {
    var card := Posted(post, CardKey);
    var expiry := Posted(post, ExpiryKey);
    var cvc := Posted(post, CvcKey);
    var holder := Posted(post, HolderKey);
    assert Passes(post, 0) && Passes(post, 1) && Passes(post, 2) && Passes(post, 3) ==>
      forall i :: 0 <= i < 4 ==> Passes(post, i);
    if Empty(card) then
      assert !Passes(post, 0);
      Rejected(CardNotice)
    else if Empty(expiry) || !PregMatches(Patterns.Expiry, expiry) then
      assert Passes(post, 0) && !Passes(post, 1);
      Rejected(ExpiryNotice)
    else if Empty(cvc) || !PregMatches(Patterns.Cvv, cvc) then
      assert Passes(post, 0) && Passes(post, 1) && !Passes(post, 2);
      Rejected(CvvNotice)
    else if Empty(holder) || !PregMatches(Patterns.CedulaAnyCase, holder) then
      assert Passes(post, 0) && Passes(post, 1) && Passes(post, 2) && !Passes(post, 3);
      Rejected(CedulaNotice)
    else
      Accepted
  }

  /** What the server-side checks let through and what they stop: the card number is only
      required to be present (any text but "" and "0"), and the cédula letter may be lower
      case. */
  lemma ValidateFieldsExamples()
    ensures ValidateFields(map[CardKey := "not a card", ExpiryKey := "01/2030", CvcKey := "1234", HolderKey := "v1"]) == Accepted
    ensures ValidateFields(map[CardKey := "0", ExpiryKey := "01/2030", CvcKey := "123", HolderKey := "V1"]) == Rejected(CardNotice)
    ensures ValidateFields(map[CardKey := "4111", ExpiryKey := "13/2030", CvcKey := "123", HolderKey := "V1"]) == Rejected(ExpiryNotice)
    ensures ValidateFields(map[CardKey := "4111", ExpiryKey := "01/2030", CvcKey := "12345", HolderKey := "V1"]) == Rejected(CvvNotice)
    ensures ValidateFields(map[CardKey := "4111", ExpiryKey := "01/2030", CvcKey := "123", HolderKey := "12345"]) == Rejected(CedulaNotice)
  {
    assert Patterns.Cvv("1234");
    assert !Patterns.Cvv("12345");
    assert !Patterns.CedulaAnyCase("12345");
    assert !Patterns.Expiry("13/2030");
  }

  // ---------------------------------------------------------------------------------
  // process_payment

  /** The defaults of the settings form, which `get_option` falls back to for a setting
      that was never saved. */
  function FormDefault(key: string): string {
    if key == "enabled" then "no"
    else if key == "title" then "Tarjeta de Crédito (Mercantil)"
    else if key == "description" then "Paga con tu tarjeta de crédito a través del Banco Mercantil"
    else if key == "merchant_id" then "200284"
    else if key == "client_id" then "81188330-c768-46fe-a378-ffaac9e88824"
    else if key == "secret_key" then "A11103402525120190822HB01"
    else if key == "sandbox" then "yes"
    else ""
  }

  function GetOption(settings: map<string, string>, key: string): string {
    if key in settings then settings[key] else FormDefault(key)
  }

  /** The configuration array `process_payment` passes to the API: merchant, client and
      secret from the settings and the sandbox flag; no integrator or terminal id. */
  function ApiConfigArgs(settings: map<string, string>): Api.ConfigArgs {
    Api.ConfigArgs(
      Some(GetOption(settings, "merchant_id")),
      None,
      None,
      Some(GetOption(settings, "client_id")),
      Some(GetOption(settings, "secret_key")),
      Some(GetOption(settings, "sandbox") == "yes"))
  }

  /** The configuration the API works with: integrator and terminal take the API's
      default "1", and sandbox mode is on exactly when the setting is the string "yes". */
  function GatewayConfig(settings: map<string, string>): (c: Api.Config)
    ensures c.integratorId == "1" && c.terminalId == "1"
    ensures c.sandbox <==> GetOption(settings, "sandbox") == "yes"
    ensures c.merchantId == GetOption(settings, "merchant_id")
    ensures c.clientId == GetOption(settings, "client_id")
    ensures c.secretKey == GetOption(settings, "secret_key")
  {
    Api.ParseArgs(ApiConfigArgs(settings))
  }

  /** With nothing saved, the form defaults give a complete configuration in sandbox
      mode, so the API goes past its configuration check. */
  lemma DefaultSettingsAreComplete(settings: map<string, string>)
    requires "merchant_id" !in settings && "client_id" !in settings
    requires "secret_key" !in settings && "sandbox" !in settings
    ensures Api.ConfigComplete(GatewayConfig(settings))
    ensures GatewayConfig(settings).sandbox
    ensures GatewayConfig(settings).merchantId == "200284"
  {
  }

  /** The payment array `process_payment` builds: the posted fields, with ASCII spaces
      (and only those) removed from the card number, and the order's total and number. */
  function PaymentData(post: map<string, string>, total: string, number: string): (data: map<string, string>)
    ensures data.Keys == {"card_number", "expiration_date", "cvv", "customer_id", "amount", "invoice_number"}
    ensures data["card_number"] == RemoveAsciiSpaces(Posted(post, CardKey))
    ensures ' ' !in data["card_number"]
    ensures forall c :: c != ' ' ==> (c in data["card_number"] <==> c in Posted(post, CardKey))
    ensures data["expiration_date"] == Posted(post, ExpiryKey)
    ensures data["cvv"] == Posted(post, CvcKey)
    ensures data["customer_id"] == Posted(post, HolderKey)
    ensures data["amount"] == total && data["invoice_number"] == number
  {
    map[
      "card_number" := RemoveAsciiSpaces(Posted(post, CardKey)),
      "expiration_date" := Posted(post, ExpiryKey),
      "cvv" := Posted(post, CvcKey),
      "customer_id" := Posted(post, HolderKey),
      "amount" := total,
      "invoice_number" := number]
  }

  /** A sanitised card number that `validate_fields` finds present is still present once
      its spaces are removed: a space can only sit between two other characters. */
  lemma SanitizedCardSurvives(card: string)
    requires Sanitized(card) && !Empty(card)
    ensures !Empty(RemoveAsciiSpaces(card))
  {
    if ' ' in card {
      var n := |card|;
      assert n >= 2;
      var mid := card[1..n - 1];
      assert card == [card[0]] + mid + [card[n - 1]];
      RemoveAsciiSpacesAppend([card[0]] + mid, [card[n - 1]]);
      RemoveAsciiSpacesAppend([card[0]], mid);
      RemoveAsciiSpacesChar(card[0]);
      RemoveAsciiSpacesChar(card[n - 1]);
      assert |RemoveAsciiSpaces(card)| >= 2;
    } else {
      Text.FilterKeepsAll(card, NotAsciiSpace);
    }
  }

  /** Sanitised fields that passed `validate_fields` reach the API complete, given an
      order with a total and a number. */
  lemma ValidatedFieldsArePresent(post: map<string, string>, total: string, number: string)
    requires SanitizedPost(post) && ValidateFields(post).Accepted?
    requires !Empty(total) && !Empty(number)
    ensures Api.FirstMissing(PaymentData(post, total, number)).None?
  {
    assert Passes(post, 0) && Passes(post, 1) && Passes(post, 2) && Passes(post, 3);
    SanitizedCardSurvives(Posted(post, CardKey));
    var data := PaymentData(post, total, number);
    forall j | 0 <= j < |Api.RequiredFields| ensures !Api.Missing(data, Api.RequiredFields[j]) {
      assert Api.Field(data, Api.RequiredFields[j]) == data[Api.RequiredFields[j]];
    }
  }

  /** The order as `process_payment` sees it. */
  class Order {
    const total: string      // get_total()
    const number: string     // get_order_number()
    var paid: bool           // set by payment_complete()
    var notes: seq<string>   // add_order_note()

    constructor (total: string, number: string)
      ensures this.total == total && this.number == number && !paid && notes == []
    {
      this.total := total;
      this.number := number;
      paid := false;
      notes := [];
    }
  }

  /** The value `process_payment` returns: the success array with its redirect, or false
      (here with the notice shown to the customer). */
  datatype Reply = Redirect(result: string, url: string) | Refused(notice: string)

  /** How the order is settled on an API result. */
  datatype Settlement = Settlement(reply: Reply, markPaid: bool, note: string)

  function TransactionText(id: Json): string {
    if id == JNull then "N/A" else ToText(id)
  }

  /** The branch of `process_payment` on the API result: an approval marks the order paid,
      notes the transaction id and redirects; a decline notes the acquirer's message and
      refuses with it. */
  function Settle(result: Api.ApiResult, returnUrl: string): (s: Settlement)
    ensures s.markPaid <==> result.Approved?
    ensures s.reply.Redirect? <==> result.Approved?
    ensures result.Approved? ==> s.reply == Redirect("success", returnUrl)
    ensures result.Approved? ==> s.note == "Pago procesado con Mercantil. ID: " + TransactionText(result.transactionId)
    ensures result.Declined? ==> s.note == "Error Mercantil: " + ToText(result.errorMessage)
    ensures result.Declined? ==> s.reply == Refused("Error en el pago: " + ToText(result.errorMessage))
  {
    match result
    case Approved(_, id) =>
      Settlement(Redirect("success", returnUrl), true, "Pago procesado con Mercantil. ID: " + TransactionText(id))
    case Declined(message, _, _) =>
      Settlement(Refused("Error en el pago: " + ToText(message)), false, "Error Mercantil: " + ToText(message))
  }

  /** How `process_payment` settles an order of the given total and number: the API's
      outcome for the gateway's configuration and the order's data, then `Settle`. */
  function SettleOrder(settings: map<string, string>, post: map<string, string>, total: string,
                       number: string, crypto: Enc.Crypto, host: Api.Host, returnUrl: string): Settlement
  {
    Settle(Api.Outcome(GatewayConfig(settings), PaymentData(post, total, number), crypto, host).result, returnUrl)
  }

  /** `WC_Mercantil_Gateway`, with its saved settings. */
  class Gateway {
    const settings: map<string, string>

    constructor (settings: map<string, string>)
      ensures this.settings == settings
    {
      this.settings := settings;
    }

    /** `process_payment`: the API is called with the gateway's configuration and the
        order's data, and the order is settled on its result. */
    method ProcessPayment(order: Order, post: map<string, string>, crypto: Enc.Crypto,
                          host: Api.Host, returnUrl: string) returns (reply: Reply)
      modifies order
      ensures var s := SettleOrder(settings, post, order.total, order.number, crypto, host, returnUrl);
        && reply == s.reply
        && order.paid == (old(order.paid) || s.markPaid)
        && order.notes == old(order.notes) + [s.note]
    {
      var data := PaymentData(post, order.total, order.number);
      var api := new Api.PaymentApi(ApiConfigArgs(settings));
      var attempt := api.ProcessPayment(data, crypto, host);
      var s := Settle(attempt.result, returnUrl);
      assert s == SettleOrder(settings, post, order.total, order.number, crypto, host, returnUrl);
      if s.markPaid {
        order.paid := true;
      }
      order.notes := order.notes + [s.note];
      reply := s.reply;
    }
  }
}
