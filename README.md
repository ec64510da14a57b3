# Mercantil payment gateway for WooCommerce — a Dafny model

This project models the payment logic of the Banco Mercantil gateway plugin for
WooCommerce and proves properties about it. It covers these parts:

- **`Mercantil_Payment_API`** (`mercantil_api.dfy`). This is the server-side payment call:
  - the configuration check;
  - the required-field check, which stops at the first empty field;
  - the acquirer's request body, with the expiry swapped to "YYYY/MM", the card's whitespace removed and the CVV encrypted;
  - the choice of endpoint and headers;
  - the classification of the acquirer's reply;
  - the choice of client IP by header precedence.
- **`Mercantil_Encryption`** and its two helpers (`mercantil_encryption.dfy`):
  - key derivation from SHA-256;
  - key normalisation to 16 bytes;
  - AES-128-ECB with a base64 envelope;
  - the helpers, which map every failure to `''`.
- **`WC_Mercantil_Gateway`** (`wc_mercantil_gateway.dfy`):
  - `validate_fields`, which stops at the first failing check and ignores the case of the cédula letter;
  - the payment array and configuration that `process_payment` builds;
  - how the order is settled on the API's result.
- **`mercantil-payment.js`** (`mercantil_payment.dfy`):
  - `validatePaymentForm`, which collects every failed check and requires an upper-case cédula letter;
  - `formatCardNumber`, which groups the digits in fours and keeps at most 16.
- **`mercantil-checkout.js`** (`mercantil_checkout.dfy`): `validateField` and `validateAllFields`, which check every visible field.

Shared modules hold PHP semantics (`php.dfy`) and JavaScript semantics (`js.dfy`):
- `empty()`, PCRE `\s`, `trim` and PCRE's `$`;
- `isset`/`??` and string conversion of decoded JSON values;
- the JavaScript `\s` class.

They also hold the field formats the three validators share (`patterns.dfy`) and string helpers (`text.dfy`): filtering, `explode`/`join` and groups of four.

The cryptographic primitives are the fields of a `Crypto` value. The host's services are the fields of a `Host` value:
- `$_SERVER`;
- `filter_var(…, FILTER_VALIDATE_IP)`;
- `wp_remote_post`;
- `json_decode`;
- PHP's loose `== 0`;
- `uniqid()`.

The facts assumed about these services are stated once, as the predicates `MercantilEncryption.Lawful` and `MercantilApi.HostLaws`. Only the lemmas that need them require them.

A model of the API's `process_payment` returns an `Attempt`. The `Attempt` records the request handed to the transport, so "no request was sent" is a checkable property.

Two behaviours of the code are worth knowing:
- When the CVV cannot be encrypted, the code sends `''` as the CVV rather than aborting the payment (`MercantilApi.SentCvvEmptyIffCipherFails`).
- The API checks only that `customer_id` is present. Its V/E format is checked by the gateway's `validate_fields` and the browser scripts, not by the API (`MercantilApi.UnprefixedCustomerIdIsSent`).

## Model

| member | source | states |
|---|---|---|
| MercantilApi.ParseArgs | includes/class-mercantil-api.php:10-18 | each given configuration value wins; an absent one takes its default: empty merchant id, client id and secret, integrator and terminal "1", sandbox on |
| MercantilApi.PaymentApi.constructor | includes/class-mercantil-api.php:10-18 | the configuration is the caller's array laid over the defaults |
| MercantilApi.FirstMissingFrom | includes/class-mercantil-api.php:55-61 | from position k on, the result is the index of the first required field that `empty()` rejects; every earlier field is present; none means all are present |
| MercantilApi.FirstMissing | includes/class-mercantil-api.php:55-61 | the first missing field in the order card_number, customer_id, invoice_number, expiration_date, cvv, amount, or none when all are present |
| MercantilApi.PaymentApi.ValidatePaymentData | includes/class-mercantil-api.php:54-64 | the foreach loop is valid exactly when no required field is missing; otherwise its error names the first missing field |
| MercantilApi.FirstOfferFrom | includes/class-mercantil-api.php:152-165 | the first server variable, from position k on, whose value is non-empty and whose candidate address is a valid IP; every earlier one offers none |
| MercantilApi.FirstOfferAt | includes/class-mercantil-api.php:154-165 | a variable that offers an address, with none offering one between k and it, is the first offer from k |
| MercantilApi.ClientIp | includes/class-mercantil-api.php:151-168 | the address is 127.0.0.1 or a valid IP; it is 127.0.0.1 when no variable offers one; otherwise it is the candidate (with a comma, its first entry trimmed; without one, the value as it is) of the first variable in the order X-Forwarded-For, X-Real-IP, Client-IP, REMOTE_ADDR that offers one |
| MercantilApi.PaymentApi.GetClientIp | includes/class-mercantil-api.php:151-168 | the loop with early return computes exactly `ClientIp` |
| MercantilApi.SwapExpiry | includes/class-mercantil-api.php:68-69 | an expiry that `explode('/')` cuts into exactly two pieces is sent with the pieces swapped; any other input is sent unchanged |
| MercantilApi.SwapExpiryTwice | includes/class-mercantil-api.php:68-69 | swapping a two-piece expiry gives a two-piece string, and swapping twice restores the input |
| MercantilApi.SwapExpiryMonthYear | includes/class-mercantil-api.php:68-69 | "MM/YYYY" is sent as "YYYY/MM"; "03/2026" becomes "2026/03" |
| MercantilApi.BuildRequestBody | includes/class-mercantil-api.php:66-101 | the merchant block copies integrator, merchant and terminal ids from the configuration; the client block has the chosen IP, the user agent or "WordPress/WooCommerce", and the fixed Generic/Unknown/Unknown device; the transaction is compra/tdc/ves; its card number has no whitespace and exactly the input's other characters; customer id and invoice are copied; the expiry is swapped; the CVV is the helper's encryption under the secret; the amount is rendered with two decimals |
| MercantilApi.SendArgs | includes/class-mercantil-api.php:103-116 | the endpoint is the sandbox URL exactly when sandbox is on, otherwise the production URL; the request is a POST with a 30 s timeout, the body, and exactly the headers Content-Type application/json and X-IBM-Client-ID equal to the client id |
| MercantilApi.HandleResponse | includes/class-mercantil-api.php:121-149 | a transport error gives CONNECTION_ERROR with the transport's message; approval holds exactly when the status is 200 and the decoded error_code is set and loosely 0; an approval carries the decoded body and its transaction_id, or else the generated id; a decline carries error_message (default "Error en el procesamiento del pago"), error_code (default UNKNOWN_ERROR) and the HTTP status |
| MercantilApi.ApprovalHasTransactionId | includes/class-mercantil-api.php:134-139 | an approval's transaction id is never null, and it is empty only when the acquirer sent an empty one |
| MercantilApi.ResponseExamples | includes/class-mercantil-api.php:134-147 | 200 with code 0 and id T1 approves with T1; 200 with code 5 declines with the acquirer's message and code; 503 with an undecodable body declines with the default message and code |
| MercantilApi.Outcome | includes/class-mercantil-api.php:21-52 | a request is sent exactly when the configuration is complete and no field is missing; an incomplete configuration gives EXCEPTION with "Error interno: Configuración incompleta del gateway"; a missing field gives VALIDATION_ERROR naming it; otherwise the request sent is the one built for this data with the chosen IP, and the result is the classification of the transport's reply |
| MercantilApi.PaymentApi.ProcessPayment | includes/class-mercantil-api.php:21-52 | the method's result and the request it sends are exactly `Outcome` |
| MercantilApi.DeclineHasCode | includes/class-mercantil-api.php:31-50 | every failure the API reports carries a non-null error code |
| MercantilApi.SentCvvEmptyIffCipherFails | includes/class-mercantil-api.php:72 | once the checks pass, the CVV is sent as '' exactly when the cipher refuses it under the derived key |
| MercantilApi.UnprefixedCustomerIdIsSent | includes/class-mercantil-api.php:55-61 | a customer id without its V/E prefix, such as "12345", passes the API's checks and is sent as it is |
| MercantilEncryption.CreateKeyHash | includes/class-mercantil-encryption.php:14-21 | throws "La clave secreta no puede estar vacía" exactly when the key is empty in the `empty()` sense ("" or "0"); otherwise returns the first 16 bytes of the SHA-256 digest |
| MercantilEncryption.KeyHashLength | includes/class-mercantil-encryption.php:19-20 | with a 32-byte digest the derived key has exactly 16 bytes, the digest's first 16 |
| MercantilEncryption.FixKeyLength | includes/class-mercantil-encryption.php:26-38 | the result always has 16 bytes; a shorter key is its prefix, followed by '0' padding; a longer key is cut to its first 16 bytes |
| MercantilEncryption.FixKeyLengthIdempotent | includes/class-mercantil-encryption.php:26-38 | normalising a normalised key changes nothing |
| MercantilEncryption.Encrypt | includes/class-mercantil-encryption.php:43-56 | empty data throws "Los datos a encriptar no pueden estar vacíos"; otherwise the call succeeds exactly when AES under the normalised key succeeds, and then returns the base64 of the AES ciphertext |
| MercantilEncryption.Decrypt | includes/class-mercantil-encryption.php:61-74 | empty input throws "Los datos encriptados no pueden estar vacíos"; otherwise the call succeeds exactly when AES decryption of the base64-decoded input under the normalised key succeeds, and then returns its plaintext |
| MercantilEncryption.CiphertextNotEmpty | includes/class-mercantil-encryption.php:55 | the base64 envelope of a non-empty ciphertext is never empty in the `empty()` sense |
| MercantilEncryption.DecryptEncrypt | includes/class-mercantil-encryption.php:43-74 | round trip: whatever `encrypt` returns, `decrypt` under the same key turns it back into the data |
| MercantilEncryption.DerivedKeyUnchanged | includes/class-mercantil-encryption.php:80-81 | a key from `create_key_hash` already has 16 bytes, so normalisation does not change it |
| MercantilEncryption.EncryptData | includes/class-mercantil-encryption.php:78-86 | never throws; an empty secret, empty data or a cipher failure gives '' |
| MercantilEncryption.DecryptData | includes/class-mercantil-encryption.php:88-96 | never throws; an empty secret or input gives ''; a `decrypt` that throws on the derived key gives ''; a successful decryption gives the plaintext |
| MercantilEncryption.EncryptDataEmptyIff | includes/class-mercantil-encryption.php:78-86 | the helper returns '' exactly when the secret or the data is empty or the cipher refuses the data |
| MercantilEncryption.DecryptDataEncryptData | includes/class-mercantil-encryption.php:78-96 | a non-empty encryption of the data under a secret decrypts back to the data under that secret |
| Php.StripSpaces | includes/class-mercantil-api.php:92 | `preg_replace('/\s+/', '')` leaves no PCRE whitespace, keeps every character that is not whitespace, and leaves a string without whitespace unchanged |
| Php.StripSpacesAppend | includes/class-mercantil-api.php:92 | whitespace is removed piece by piece: the result for `a + b` is the result for `a` followed by the result for `b`, so the kept characters keep their order and their number |
| Php.StripSpacesChar | includes/class-mercantil-api.php:92 | a single character is dropped exactly when it is PCRE whitespace (with the previous row this fixes the result on every string) |
| Php.RemoveAsciiSpaces | includes/class-wc-mercantil-gateway.php:129 | `str_replace(' ', '')` leaves no ASCII space and keeps every other character |
| Php.RemoveAsciiSpacesAppend | includes/class-wc-mercantil-gateway.php:129 | ASCII spaces are removed piece by piece, so the other characters keep their order and their number |
| Php.RemoveAsciiSpacesChar | includes/class-wc-mercantil-gateway.php:129 | a single character is dropped exactly when it is the ASCII space |
| Php.NatText | includes/class-wc-mercantil-gateway.php:163 | an integer is printed as a non-empty string of decimal digits |
| Php.NatTextValue | includes/class-wc-mercantil-gateway.php:163 | the printed digits denote the number, most significant first, with no leading zero except for 0 itself, so a note built from an integer code names that code |
| Php.Trim | includes/class-mercantil-api.php:159 | the result is a middle part `s[i..j]` of the address with only stripped characters before `i` and after `j`, and neither starts nor ends with a stripped character, so it is exactly what `trim` leaves |
| Patterns.ExpiryTextHasFormat | includes/class-wc-mercantil-gateway.php:107 | every month 1-12 of a year 2000-2099, written MM/YYYY, has the expiry format |
| Patterns.ExpiryIsMonthAndYear | includes/class-wc-mercantil-gateway.php:107 | conversely, a string of the expiry format is such a month and year |
| Patterns.ExpiryExamples | assets/js/mercantil-checkout.js:59 | 13/2025, 00/2025 and 01/99 are refused; 01/2025 and 12/2099 are accepted |
| Patterns.CedulaUpperIsStricter | assets/js/mercantil-payment.js:118 | the case-sensitive cédula rule implies the case-insensitive one, and "v123" separates them |
| WcMercantilGateway.ValidateFields | includes/class-wc-mercantil-gateway.php:96-123 | accepted exactly when all four checks pass (card present, expiry, CVV, cédula of either case, in their patterns); otherwise the first failing check's notice, alone |
| WcMercantilGateway.ValidateFieldsExamples | includes/class-wc-mercantil-gateway.php:102-118 | any card text except '' and '0' is accepted, and a lower-case cédula letter too; a card "0", month 13, a 5-digit CVV and an unprefixed cédula are each refused with their own notice |
| WcMercantilGateway.GatewayConfig | includes/class-wc-mercantil-gateway.php:143-148 | merchant, client and secret come from the settings; integrator and terminal are the API's "1"; sandbox is on exactly when the setting is "yes" |
| WcMercantilGateway.DefaultSettingsAreComplete | includes/class-wc-mercantil-gateway.php:42-62 | with nothing saved, the form defaults give a complete configuration in sandbox mode with merchant 200284 |
| WcMercantilGateway.PaymentData | includes/class-wc-mercantil-gateway.php:129-141 | the payment array has exactly the six required keys; the card number is the posted one after `str_replace(' ', '')` (characterised by the `Php.RemoveAsciiSpaces` rows), so it has no ASCII space and keeps every other character in order; the other fields are the posted ones and the order's total and number |
| WcMercantilGateway.ValidatedFieldsArePresent | includes/class-wc-mercantil-gateway.php:96-141 | sanitised fields accepted by `validate_fields` reach the API with nothing missing, given an order with a total and a number |
| WcMercantilGateway.SanitizedCardSurvives | includes/class-wc-mercantil-gateway.php:97-129 | a card number left by `sanitize_text_field` that `validate_fields` finds present stays present once its spaces are removed at line 129 |
| WcMercantilGateway.Settle | includes/class-wc-mercantil-gateway.php:153-166 | an approval marks the order paid, notes the transaction id (or N/A) and redirects with result success; a decline leaves the order unpaid, notes "Error Mercantil: " and the message, and refuses with "Error en el pago: " and the message |
| WcMercantilGateway.Gateway.ProcessPayment | includes/class-wc-mercantil-gateway.php:125-173 | the order is settled on the API's outcome for the gateway's configuration and the order's data: paid is set on approval only, exactly one note is added, and the reply is the settlement's |
| MercantilPayment.FailingFrom | assets/js/mercantil-payment.js:114-144 | the messages from check k on are empty exactly when those checks all pass, and there are at most as many as checks |
| MercantilPayment.FailingFromMessages | assets/js/mercantil-payment.js:114-144 | each check from k on has its message in the list exactly when it fails; no earlier check's message appears |
| MercantilPayment.ValidatePaymentForm | assets/js/mercantil-payment.js:114-144 | every check runs; the list is the failing checks' messages in the order cédula, card, expiry, CVV, amount; it is empty exactly when all pass |
| MercantilPayment.LeadingRun | assets/js/mercantil-payment.js:98-99 | on a digit string, the first match of `\d{4,16}` is its first 16 digits, or '' when it has fewer than 4 |
| MercantilPayment.Groups | assets/js/mercantil-payment.js:100-104 | the `i += 4` loop collects exactly the string's consecutive groups of four |
| MercantilPayment.FormatCardNumber | assets/js/mercantil-payment.js:96-111 | the field becomes `CardDisplay` of its old value |
| MercantilPayment.CardDisplayGroups | assets/js/mercantil-payment.js:96-107 | with at least 4 digits, the output splits on spaces into one to four digit groups, each of four digits but the last, which has one to four |
| MercantilPayment.CardDisplayDigits | assets/js/mercantil-payment.js:97-103 | the output's digits are the first min(n, 16) digits of the input, in order, and everything else in it is spaces |
| MercantilPayment.CardDisplayShort | assets/js/mercantil-payment.js:106-110 | with fewer than 4 digits, the output is the cleaned digit string |
| MercantilPayment.CardDisplayIdempotent | assets/js/mercantil-payment.js:97-110 | formatting a formatted value changes nothing |
| Js.StripSpaces | assets/js/mercantil-checkout.js:53 | `replace(/\s/g, '')` leaves no JavaScript whitespace and keeps every other character |
| Js.StripSpacesAppend | assets/js/mercantil-payment.js:123 | whitespace is removed piece by piece: the result for `a + b` is the result for `a` followed by the result for `b`, so the kept characters keep their order and their number |
| Js.StripSpacesChar | assets/js/mercantil-payment.js:123 | a single character is dropped exactly when it is JavaScript whitespace (with the previous row this fixes the result on every string) |
| Js.KeepDigits | assets/js/mercantil-payment.js:97 | `replace(/[^0-9]/gi, '')` leaves only ASCII digits and keeps every digit |
| Js.KeepDigitsAppend | assets/js/mercantil-payment.js:97 | non-digits are removed piece by piece, so the digits keep their order and their number |
| Js.KeepDigitsChar | assets/js/mercantil-payment.js:97 | a single character is kept exactly when it is an ASCII digit |
| Js.StripThenKeepDigits | assets/js/mercantil-payment.js:97 | dropping whitespace before dropping non-digits gives the same digits |
| MercantilCheckout.ValidateField | assets/js/mercantil-checkout.js:46-76 | the card is valid exactly when it is 13-19 digits after whitespace removal; the expiry, CVV and case-insensitive cédula fields exactly when they match their patterns; an unknown id is valid |
| MercantilCheckout.MarkField | assets/js/mercantil-checkout.js:105-118 | a field is marked valid exactly when it is valid; an invalid field gets its message span exactly when it has a message and a non-empty value |
| MercantilCheckout.ValidateAllFields | assets/js/mercantil-checkout.js:78-103 | exactly the visible fields are validated and marked, with no early exit; the result is true exactly when every visible field is valid; otherwise the general error is shown |
| MercantilCheckout.CheckoutImpliesServerAcceptance | includes/class-wc-mercantil-gateway.php:96-123 | four visible fields that all pass the checkout script are accepted by `validate_fields` when posted as they are |
| MercantilCheckout.ServerTakesWhatCheckoutRefuses | includes/class-wc-mercantil-gateway.php:102-105 | the converse fails: a card "abc" passes the server's card check but not the browser's |

## Left out

- The bodies of SHA-256, AES-128-ECB, base64 and `openssl_error_string` are foreign library calls. They are fields of `Crypto`. `Lawful` states the assumed facts:
  - a digest has 32 bytes;
  - a successful encryption under a 16-byte key is non-empty;
  - decryption inverts encryption under a 16-byte key;
  - base64 decoding inverts encoding;
  - base64 has its 4-per-3 length.
- `wp_remote_post`, `json_encode`, `wp_remote_retrieve_*` and the network are I/O. The request is data (`HttpRequest`), the reply is a `HttpResponse`, and the transport is a field of `Host`.
- `json_decode` is abstract. Its result is a string-keyed map, or none when the body does not decode to an array.
- `filter_var(…, FILTER_VALIDATE_IP)` is an abstract predicate. PHP's loose `== 0` is an abstract predicate that agrees with 0 on integers. `uniqid()` is an arbitrary non-empty string.
- `MercantilApi.BuildRequestBody`: the amount `number_format(floatval(…), 2)` is floating point and is kept symbolic as `TwoDecimals(raw)`.
- `MercantilApi.BuildRequestBody`: its contract gives the card number's characters and the absence of whitespace, not their order. The order follows from the definition: the card is `Php.StripSpaces` of the input, whose order is fixed by `Php.StripSpacesAppend` and `Php.StripSpacesChar`.
- `MercantilPayment.Passes`: `parseFloat` is floating point. It is a parameter that classifies the amount as not a number, at most zero or above zero. An amount `parseFloat` cannot read passes the check, as in the script.
- `MercantilApi.ParseArgs`: the sandbox flag is a boolean. PHP truthiness of other values (a string "no", say) is not modelled. The gateway always passes a boolean.
- `MercantilApi.HandleResponse`: the status is an integer. `wp_remote_retrieve_response_code` returning '' is not modelled.
- `sanitize_text_field` is WordPress code. `WcMercantilGateway.Sanitized` states what it guarantees of its result: no tab, line feed or carriage return, no two spaces in a row and no space at either end. The lemmas about what the gateway receives require it of the posted fields. Its other steps (tags, percent-encoded octets, invalid UTF-8) are not modelled. `validate_fields` itself is modelled on any string, so its PCRE `$` before a final line feed is kept although sanitised text has none.
- `error_log`, `wc_add_notice`, `WC()->cart->empty_cart()` and `get_return_url` are WordPress/WooCommerce side effects. A notice is carried in the result, and the return URL is a parameter.
- `WcMercantilGateway.Gateway.ProcessPayment`: the `catch` branch of `process_payment` is not modelled. Nothing in the modelled call throws, because the API catches its own exceptions.
- The gateway constructor's title, description and enabled options, `payment_fields` and `init_form_fields` are settings UI. Only the form defaults that `get_option` falls back to are modelled (`WcMercantilGateway.FormDefault`).
- `processMercantilPayment` is an async `fetch`. The submit handler, `showUserMessage`, `createDebugPanel`, `showGeneralError`, `toggleMercantilFields` and the DOM side of `setFieldStatus` are UI code.
- The plugin bootstrap `mercantil-payment-gateway.php` (hooks, script loading, activation) is not part of this model.
- Strings are sequences of characters, one per byte on the PHP side. Multi-byte encodings are not modelled.
