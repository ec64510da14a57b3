/** The checkout script: `validateField` checks one card field of the WooCommerce checkout
    form and marks it, and `validateAllFields` checks every visible one before the order
    is placed. The page is given as the state of each field, by element id. */
module MercantilCheckout {
  import opened Prelude
  import opened Php
  import Js
  import Patterns
  import Gw = WcMercantilGateway

  const CardId := "mercantil-card-number"
  const ExpiryId := "mercantil-card-expiry"
  const CvcId := "mercantil-card-cvc"
  const HolderId := "mercantil-card-holder"

  /** The fields `validateAllFields` visits, in order. */
  const FieldIds: seq<string> := [CardId, ExpiryId, CvcId, HolderId]

  const GeneralMessage := "Por favor corrige los errores en el formulario de pago."

  /** The `switch` of `validateField`: which test a field id gets; an id it does not know
      stays valid. */
  function ValidateField(id: string, value: string): (valid: bool)
    ensures id == CardId ==> (valid <==> Patterns.Card(Js.StripSpaces(value)))
    ensures id == ExpiryId ==> (valid <==> Patterns.Expiry(value))
    ensures id == CvcId ==> (valid <==> Patterns.Cvv(value))
    ensures id == HolderId ==> (valid <==> Patterns.CedulaAnyCase(value))
    ensures id !in FieldIds ==> valid
  {
    if id == CardId then Patterns.Card(Js.StripSpaces(value))
    else if id == ExpiryId then Patterns.Expiry(value)
    else if id == CvcId then Patterns.Cvv(value)
    else if id == HolderId then Patterns.CedulaAnyCase(value)
    else true
  }

  /** The message `validateField` sets for a field id ('' for an id it does not know). */
  function FieldMessage(id: string): string {
    if id == CardId then "Número de tarjeta inválido"
    else if id == ExpiryId then "Formato de fecha inválido (MM/AAAA)"
    else if id == CvcId then "CVV inválido"
    else if id == HolderId then "Cédula inválida (V/E + números)"
    else ""
  }

  /** How `setFieldStatus` leaves a field: the `mercantil-valid` class, or the
      `mercantil-invalid` class with the error span after it when there is one. */
  datatype Mark = MarkedValid | MarkedInvalid(span: Option<string>)

  /** `validateField` followed by `setFieldStatus`: an invalid field shows its message only
      when it has a message and its value is not empty. */
  function MarkField(id: string, value: string): (m: Mark)
    ensures m.MarkedValid? <==> ValidateField(id, value)
    ensures m.MarkedInvalid? ==> (m.span.Some? <==> value != "" && FieldMessage(id) != "")
    ensures m.MarkedInvalid? && m.span.Some? ==> m.span.value == FieldMessage(id)
  {
    if ValidateField(id, value) then MarkedValid
    else if FieldMessage(id) != "" && value != "" then MarkedInvalid(Some(FieldMessage(id)))
    else MarkedInvalid(None)
  }

  /** A field element on the page. */
  datatype FieldState = FieldState(value: string, visible: bool)

  /** `$(selector).is(':visible')`: the element exists and is shown. */
  predicate Shown(page: map<string, FieldState>, id: string) {
    id in page && page[id].visible
  }

  /** `validateAllFields`: every visible field is validated and marked, also after one
      has failed; the result is true exactly when all of them passed, and otherwise the
      general error is shown. */
  method ValidateAllFields(page: map<string, FieldState>) returns (allValid: bool, marks: map<string, Mark>, notice: Option<string>)
    ensures forall id :: id in marks <==> id in FieldIds && Shown(page, id)
    ensures forall id :: id in marks ==> Shown(page, id) && marks[id] == MarkField(id, page[id].value)
    ensures allValid <==> forall id :: id in FieldIds && Shown(page, id) ==> ValidateField(id, page[id].value)
    ensures notice == (if allValid then None else Some(GeneralMessage))
  {
    allValid := true;
    marks := map[];
    var k := 0;
    while k < |FieldIds|
      invariant 0 <= k <= |FieldIds|
      invariant forall id :: id in marks <==> id in FieldIds[..k] && Shown(page, id)
      invariant forall id :: id in marks ==> Shown(page, id) && marks[id] == MarkField(id, page[id].value)
      invariant allValid <==> forall id :: id in FieldIds[..k] && Shown(page, id) ==> ValidateField(id, page[id].value)
    {
      var id := FieldIds[k];
      assert FieldIds[..k + 1] == FieldIds[..k] + [id];
      if Shown(page, id) {
        var isValid := ValidateField(id, page[id].value);
        marks := marks[id := MarkField(id, page[id].value)];
        if !isValid {
          allValid := false;
        }
      }
      k := k + 1;
    }
    assert FieldIds[..k] == FieldIds;
    notice := if allValid then None else Some(GeneralMessage);
  }

  /** The browser check is at least as strict as the server's: four visible fields that all
      pass `validateAllFields` are accepted by `validate_fields` when posted unchanged. */
  lemma CheckoutImpliesServerAcceptance(page: map<string, FieldState>, post: map<string, string>)
    requires CardId in page && ExpiryId in page && CvcId in page && HolderId in page
    requires forall id :: id in FieldIds ==> Shown(page, id) && ValidateField(id, page[id].value)
    requires Gw.Posted(post, Gw.CardKey) == page[CardId].value
    requires Gw.Posted(post, Gw.ExpiryKey) == page[ExpiryId].value
    requires Gw.Posted(post, Gw.CvcKey) == page[CvcId].value
    requires Gw.Posted(post, Gw.HolderKey) == page[HolderId].value
    ensures Gw.ValidateFields(post) == Gw.Accepted
  {
    var card := page[CardId].value;
    assert ValidateField(CardId, card);
    var stripped := Js.StripSpaces(card);
    assert |stripped| >= 13;
    assert !Empty(card);
    assert ValidateField(ExpiryId, page[ExpiryId].value);
    assert ValidateField(CvcId, page[CvcId].value);
    assert ValidateField(HolderId, page[HolderId].value);
    assert Gw.Passes(post, 0) && Gw.Passes(post, 1) && Gw.Passes(post, 2) && Gw.Passes(post, 3);
  }

  /** The converse fails: the server takes any card text, which the browser refuses. */
  lemma ServerTakesWhatCheckoutRefuses(post: map<string, string>)
    requires Gw.Posted(post, Gw.CardKey) == "abc"
    ensures Gw.Passes(post, 0)
    ensures !ValidateField(CardId, "abc")
  {
  }
}
