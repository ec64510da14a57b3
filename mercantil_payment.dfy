/** The standalone payment form script: `validatePaymentForm`, which collects one message
    per failed check, and `formatCardNumber`, which rewrites the card field as groups of
    four digits while the customer types. */
module MercantilPayment {
  import opened Prelude
  import opened Text
  import Js
  import Patterns

  /** The `formData` object `validatePaymentForm` receives. */
  datatype PaymentForm = PaymentForm(
    customerId: string,
    cardNumber: string,
    expirationDate: string,
    cvv: string,
    amount: string)

  /** How `parseFloat(amount) <= 0` can come out: `NotANumber` compares false like a
      positive number. */
  datatype Parsed = NotANumber | AtMostZero | AboveZero

  const CedulaMessage := "La cédula debe comenzar con V o E seguido de números"
  const CardMessage := "Número de tarjeta inválido"
  const ExpiryMessage := "Fecha de expiración inválida. Use MM/AAAA"
  const CvvMessage := "CVV inválido"
  const AmountMessage := "Monto inválido"
  /** The message of check `k`. */
  function Message(k: nat): string {
    if k == 0 then CedulaMessage
    else if k == 1 then CardMessage
    else if k == 2 then ExpiryMessage
    else if k == 3 then CvvMessage
    else AmountMessage
  }

  /** Check `i` of `validatePaymentForm`: 0 the cédula (upper-case letter only), 1 the card
      number once its whitespace is removed, 2 the expiry, 3 the CVV, 4 the amount
      (present, and not a number at most zero). */
  predicate Passes(form: PaymentForm, parseFloat: string -> Parsed, i: nat)
    requires i < 5
  {
    if i == 0 then Patterns.CedulaUpper(form.customerId)
    else if i == 1 then Patterns.Card(Js.StripSpaces(form.cardNumber))
    else if i == 2 then Patterns.Expiry(form.expirationDate)
    else if i == 3 then Patterns.Cvv(form.cvv)
    else form.amount != "" && parseFloat(form.amount) != AtMostZero
  }

  /** What check `k` adds to the list: nothing, or its message. */
  function Contribution(form: PaymentForm, parseFloat: string -> Parsed, k: nat): seq<string>
    requires k < 5
  {
    if Passes(form, parseFloat, k) then [] else [Message(k)]
  }

  /** The messages of the failed checks from check `k` on, in check order. */
  function FailingFrom(form: PaymentForm, parseFloat: string -> Parsed, k: nat): (r: seq<string>)
    requires k <= 5
    ensures r == [] <==> forall i :: k <= i < 5 ==> Passes(form, parseFloat, i)
    ensures |r| <= 5 - k
    decreases 5 - k
  {
    if k == 5 then []
    else Contribution(form, parseFloat, k) + FailingFrom(form, parseFloat, k + 1)
  }

  /** Each check from `k` on has its message in the list exactly when it fails, and no
      earlier check's message is there. */
  lemma {:induction false} FailingFromMessages(form: PaymentForm, parseFloat: string -> Parsed, k: nat)
    requires k <= 5
    ensures forall i :: k <= i < 5 ==> (Message(i) in FailingFrom(form, parseFloat, k) <==> !Passes(form, parseFloat, i))
    ensures forall i :: 0 <= i < k ==> Message(i) !in FailingFrom(form, parseFloat, k)
    decreases 5 - k
  {
    if k < 5 {
      FailingFromMessages(form, parseFloat, k + 1);
    }
  }

  /** The five checks in a row. */
  lemma FailingFromUnfolded(form: PaymentForm, parseFloat: string -> Parsed)
    ensures FailingFrom(form, parseFloat, 0) == Contribution(form, parseFloat, 0) + Contribution(form, parseFloat, 1)
      + Contribution(form, parseFloat, 2) + Contribution(form, parseFloat, 3) + Contribution(form, parseFloat, 4)
  {
  }

  /** `validatePaymentForm`: every check runs, and each failed one adds its message. */
  method ValidatePaymentForm(form: PaymentForm, parseFloat: string -> Parsed) returns (errors: seq<string>)
    ensures errors == FailingFrom(form, parseFloat, 0)
    ensures errors == [] <==> forall i :: 0 <= i < 5 ==> Passes(form, parseFloat, i)
  {
    errors := [];
    if !Patterns.CedulaUpper(form.customerId) {
      errors := errors + [CedulaMessage];
    }
    assert errors == Contribution(form, parseFloat, 0);
    var cleanCard := Js.StripSpaces(form.cardNumber);
    if !Patterns.Card(cleanCard) {
      errors := errors + [CardMessage];
    }
    assert errors == Contribution(form, parseFloat, 0) + Contribution(form, parseFloat, 1);
    if !Patterns.Expiry(form.expirationDate) {
      errors := errors + [ExpiryMessage];
    }
    assert errors == Contribution(form, parseFloat, 0) + Contribution(form, parseFloat, 1)
      + Contribution(form, parseFloat, 2);
    if !Patterns.Cvv(form.cvv) {
      errors := errors + [CvvMessage];
    }
    assert errors == Contribution(form, parseFloat, 0) + Contribution(form, parseFloat, 1)
      + Contribution(form, parseFloat, 2) + Contribution(form, parseFloat, 3);
    if form.amount == "" || parseFloat(form.amount) == AtMostZero {
      errors := errors + [AmountMessage];
    }
    FailingFromUnfolded(form, parseFloat);
  }

  // ---------------------------------------------------------------------------------
  // formatCardNumber

  /** The card number field. */
  class CardInput {
    var value: string

    constructor (value: string)
      ensures this.value == value
    {
      this.value := value;
    }
  }

  /** `value.match(/\d{4,16}/g)`, first match or '', on a string of digits: its first 16
      digits, or '' when it has fewer than 4. */
  function LeadingRun(value: string): (m: string)
    requires AllDigits(value)
    ensures |value| < 4 ==> m == ""
    ensures |value| >= 4 ==> m == value[..Min(16, |value|)] && 4 <= |m| <= 16
  {
    if |value| < 4 then "" else value[..Min(16, |value|)]
  }

  /** What `formatCardNumber` leaves in the field: the first 16 digits in groups of four
      separated by single spaces, or the digits as they are when there are fewer than 4. */
  function CardDisplay(raw: string): string {
    var value := Js.KeepDigits(Js.StripSpaces(raw));
    var parts := Chunks(LeadingRun(value), 4);
    if |parts| > 0 then Join(parts, ' ') else value
  }

  /** The loop of `formatCardNumber`: `match.substring(i, i + 4)` for i = 0, 4, 8, ... */
  method Groups(m: string) returns (parts: seq<string>)
    ensures parts == Chunks(m, 4)
  {
    parts := [];
    var i := 0;
    while i < |m|
      invariant 0 <= i
      invariant parts + Chunks(m[Min(i, |m|)..], 4) == Chunks(m, 4)
      decreases |m| - i
    {
      ChunksStep(m, i);
      parts := parts + [m[i..Min(i + 4, |m|)]];
      i := i + 4;
    }
    assert m[Min(i, |m|)..] == [];
  }

  /** `formatCardNumber`: the field becomes the groups joined with spaces, or the bare
      digits when there is no group. */
  method FormatCardNumber(input: CardInput)
    modifies input
    ensures input.value == CardDisplay(old(input.value))
  {
    var value := Js.KeepDigits(Js.StripSpaces(input.value));
    var parts := Groups(LeadingRun(value));
    if |parts| > 0 {
      input.value := Join(parts, ' ');
    } else {
      input.value := value;
    }
  }

  /** One turn of the loop: the group at `i` and the groups after it. */
  lemma ChunksStep(m: string, i: nat)
    requires i < |m|
    ensures Chunks(m[i..], 4) == [m[i..Min(i + 4, |m|)]] + Chunks(m[Min(i + 4, |m|)..], 4)
  {
    var rest := m[i..];
    assert rest[..Min(4, |rest|)] == m[i..Min(i + 4, |m|)];
    assert rest[Min(4, |rest|)..] == m[Min(i + 4, |m|)..];
  }

  /** The digits of `raw` are the ASCII digits that survive the whitespace removal. */
  lemma DigitsOf(raw: string)
    ensures Js.KeepDigits(Js.StripSpaces(raw)) == Js.KeepDigits(raw)
  {
    Js.StripThenKeepDigits(raw);
  }

  /** With four digits or more, the field splits on spaces into at most four groups of
      digits, all of four digits but the last, which has one to four. */
  lemma CardDisplayGroups(raw: string)
    requires |Js.KeepDigits(raw)| >= 4
    ensures var g := Explode(CardDisplay(raw), ' ');
      && 1 <= |g| <= 4
      && (forall i :: 0 <= i < |g| ==> 0 < |g[i]| <= 4 && AllDigits(g[i]))
      && (forall i :: 0 <= i < |g| - 1 ==> |g[i]| == 4)
  {
    DigitsOf(raw);
    var m := LeadingRun(Js.KeepDigits(raw));
    var parts := Chunks(m, 4);
    ConcatChunks(m, 4);
    ChunksOfDigits(m, 4);
    ChunksCount(m);
    forall i | 0 <= i < |parts| ensures ' ' !in parts[i] {
      assert AllDigits(parts[i]);
      assert forall k | 0 <= k < |parts[i]| :: parts[i][k] != ' ';
    }
    ExplodeJoin(parts, ' ');
  }

  /** Cutting a string into groups of four makes a group per four characters, rounded up. */
  lemma {:induction false} ChunksCount(m: string)
    ensures |Chunks(m, 4)| == (|m| + 3) / 4
    decreases |m|
  {
    if m != [] {
      ChunksCount(m[Min(4, |m|)..]);
    }
  }

  /** The field keeps exactly the first 16 digits of the input, in order; everything else
      it holds is spaces. */
  lemma CardDisplayDigits(raw: string)
    ensures Js.KeepDigits(CardDisplay(raw)) == Js.KeepDigits(raw)[..Min(16, |Js.KeepDigits(raw)|)]
    ensures forall c :: c in CardDisplay(raw) ==> IsDigit(c) || c == ' '
  {
    DigitsOf(raw);
    var d := Js.KeepDigits(raw);
    FilterKeepsAll(d, IsDigit);
    if |d| >= 4 {
      var m := LeadingRun(d);
      var parts := Chunks(m, 4);
      ConcatChunks(m, 4);
      ChunksOfDigits(m, 4);
      ChunksCount(m);
      assert forall i :: 0 <= i < |parts| ==> AllKept(parts[i], IsDigit);
      FilterJoin(parts, ' ', IsDigit);
      JoinDigitsAndSpaces(parts);
    } else {
      assert d[..|d|] == d;
    }
  }

  /** A join of digit groups holds only digits and spaces. */
  lemma {:induction false} JoinDigitsAndSpaces(parts: seq<string>)
    requires forall i :: 0 <= i < |parts| ==> AllDigits(parts[i])
    ensures forall c :: c in Join(parts, ' ') ==> IsDigit(c) || c == ' '
  {
    if |parts| > 1 {
      JoinDigitsAndSpaces(parts[1..]);
      assert AllDigits(parts[0]);
    } else if |parts| == 1 {
      assert AllDigits(parts[0]);
    }
  }

  /** With fewer than four digits the field holds the digits alone. */
  lemma CardDisplayShort(raw: string)
    requires |Js.KeepDigits(raw)| < 4
    ensures CardDisplay(raw) == Js.KeepDigits(raw)
  {
    DigitsOf(raw);
  }

  /** Formatting an already formatted field changes nothing, so the handler can run on
      every keystroke. */
  lemma CardDisplayIdempotent(raw: string)
    ensures CardDisplay(CardDisplay(raw)) == CardDisplay(raw)
  {
    var out := CardDisplay(raw);
    CardDisplayDigits(raw);
    DigitsOf(raw);
    DigitsOf(out);
    var d := Js.KeepDigits(raw);
    var d2 := Js.KeepDigits(out);
    assert d2 == d[..Min(16, |d|)];
    if |d| < 4 {
      assert LeadingRun(d2) == "";
    } else {
      var m := LeadingRun(d);
      assert d2 == m;
      assert LeadingRun(d2) == m;
    }
  }
}
