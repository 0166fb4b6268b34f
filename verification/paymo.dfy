/**
 The Paymo integration: the signature sent with an outgoing payment, the
 check of a callback's signature, and the form the browser posts to Paymo's
 hosted payment page. SHA-256 (hex digest) is a parameter `hash`; amounts are
 whole kopecks.
 */
module Paymo {
  import opened Text

  /** The two keys, read from the environment with `|| ""`. */
  datatype Config = Config(apiKey: string, secretKey: string)

  function ConfigFromEnv(apiKey: Option<string>, secretKey: Option<string>): (c: Config)
    ensures Truthy(apiKey) ==> c.apiKey == apiKey.value
    ensures !Truthy(apiKey) ==> c.apiKey == ""
    ensures Truthy(secretKey) ==> c.secretKey == secretKey.value
    ensures !Truthy(secretKey) ==> c.secretKey == ""
  {
    Config(OrElse(apiKey, ""), OrElse(secretKey, ""))
  }

  const CheckoutUrl: string := "https://checkout.paymo.ru/uniform/"

  /**
   The text the callback check hashes: transaction id, decimal amount and
   secret key, concatenated.
   */
  function SignedMessage(txId: string, amount: int, secretKey: string): (m: string)
    ensures |m| == |txId| + |IntToString(amount)| + |secretKey|
    ensures m[..|txId|] == txId
    ensures m[|txId|..|m| - |secretKey|] == IntToString(amount)
    ensures m[|m| - |secretKey|..] == secretKey
  {
    txId + IntToString(amount) + secretKey
  }

  /**
   sha256(api_key + tx_id + amount + secret_key): the API key followed by
   the very message the callback check hashes. With no API key this is the
   hash the callback check expects for the same transaction.
   */
  function GenerateSignature(cfg: Config, hash: string -> string, txId: string, amount: int): (sig: string)
    ensures sig == hash(cfg.apiKey + SignedMessage(txId, amount, cfg.secretKey))
    ensures cfg.apiKey == "" ==> sig == hash(SignedMessage(txId, amount, cfg.secretKey))
  {
    assert cfg.apiKey + txId + IntToString(amount) + cfg.secretKey
        == cfg.apiKey + SignedMessage(txId, amount, cfg.secretKey);
    assert cfg.apiKey == "" ==>
      cfg.apiKey + SignedMessage(txId, amount, cfg.secretKey) == SignedMessage(txId, amount, cfg.secretKey);
    hash(cfg.apiKey + txId + IntToString(amount) + cfg.secretKey)
  }

  /** A callback is accepted when no secret is configured, or when sha256(tx_id + amount + secret_key) matches. */
  function VerifyCallback(cfg: Config, hash: string -> string, txId: string, amount: int, signature: string): (ok: bool)
    ensures cfg.secretKey == "" ==> ok
    ensures cfg.secretKey != "" ==> (ok <==> hash(SignedMessage(txId, amount, cfg.secretKey)) == signature)
  {
    if cfg.secretKey == "" then true
    else hash(txId + IntToString(amount) + cfg.secretKey) == signature
  }

  /** Without a secret key every callback is accepted, whatever its signature. */
  lemma NoSecretAcceptsAnything(apiKey: string, hash: string -> string, txId: string, amount: int, signature: string)
    ensures VerifyCallback(Config(apiKey, ""), hash, txId, amount, signature)
  {
  }

  /**
   The two formulas differ only by the API-key prefix: with an empty API key
   the outgoing signature is exactly what the callback check expects.
   */
  lemma EmptyApiKeyMakesSignaturesAgree(secretKey: string, hash: string -> string, txId: string, amount: int)
    ensures var cfg := Config("", secretKey);
      VerifyCallback(cfg, hash, txId, amount, GenerateSignature(cfg, hash, txId, amount))
  {
  }

  /**
   With an API key and a secret set and a collision-free hash, the outgoing
   signature never passes the callback check for the same transaction.
   */
  lemma ApiKeyMakesSignaturesDiffer(cfg: Config, hash: string -> string, txId: string, amount: int)
    requires cfg.apiKey != "" && cfg.secretKey != ""
    requires forall a, b :: hash(a) == hash(b) ==> a == b
    ensures !VerifyCallback(cfg, hash, txId, amount, GenerateSignature(cfg, hash, txId, amount))
  {
    var expected := SignedMessage(txId, amount, cfg.secretKey);
    assert |cfg.apiKey + expected| > |expected|;
  }

  // ---------------------------------------------------------------------------
  // The payment form
  // ---------------------------------------------------------------------------

  datatype PaymentParams = PaymentParams(
    orderNumber: string,
    amount: int,
    description: string,
    customerEmail: Option<string>,
    customerPhone: Option<string>,
    successUrl: string,
    failUrl: string)

  predicate PhoneChar(c: char) {
    IsDigit(c) || c == '+'
  }

  /** `phone.replace(/[^0-9+]/g, "")` */
  function SanitizePhone(phone: string): (r: string)
    ensures forall i :: 0 <= i < |r| ==> PhoneChar(r[i])
    ensures |r| <= |phone|
  {
    Filter(phone, PhoneChar)
  }

  /** Sanitising twice changes nothing, and a phone of digits and `+` is sent as typed. */
  lemma SanitizePhoneStable(phone: string)
    ensures SanitizePhone(SanitizePhone(phone)) == SanitizePhone(phone)
    ensures (forall i :: 0 <= i < |phone| ==> PhoneChar(phone[i])) ==> SanitizePhone(phone) == phone
  {
    FilterIdempotent(phone, PhoneChar);
    if forall i :: 0 <= i < |phone| ==> PhoneChar(phone[i]) {
      FilterAllKept(phone, PhoneChar);
    }
  }

  /**
   The sanitized phone is exactly the digits and `+` of the typed one, in
   order: sanitizing distributes over concatenation and keeps a single
   character exactly when it is a digit or `+`.
   */
  lemma SanitizePhoneKeepsOrder(a: string, b: string, c: char)
    ensures SanitizePhone(a + b) == SanitizePhone(a) + SanitizePhone(b)
    ensures SanitizePhone([c]) == (if PhoneChar(c) then [c] else [])
  {
    FilterAppend(a, b, PhoneChar);
    assert [c][1..] == [];
  }

  const BaseFormKeys: set<string> := {"api_key", "tx_id", "amount", "description", "signature",
                                      "success_redirect", "fail_redirect", "auto_return", "extra_orderNumber"}

  /** The nine fields every payment form carries. */
  function BaseForm(cfg: Config, hash: string -> string, p: PaymentParams): (form: map<string, string>)
    ensures form.Keys == BaseFormKeys
    ensures form["api_key"] == cfg.apiKey
    ensures form["tx_id"] == p.orderNumber && form["extra_orderNumber"] == p.orderNumber
    ensures form["amount"] == IntToString(p.amount)
    ensures form["signature"] == GenerateSignature(cfg, hash, form["tx_id"], p.amount)
    ensures form["description"] == p.description
    ensures form["success_redirect"] == p.successUrl && form["fail_redirect"] == p.failUrl
    ensures form["auto_return"] == "3"
  {
    map[
      "api_key" := cfg.apiKey,
      "tx_id" := p.orderNumber,
      "amount" := IntToString(p.amount),
      "description" := p.description,
      "signature" := GenerateSignature(cfg, hash, p.orderNumber, p.amount),
      "success_redirect" := p.successUrl,
      "fail_redirect" := p.failUrl,
      "auto_return" := "3",
      "extra_orderNumber" := p.orderNumber]
  }

  /** `if (present) form[key] = value` */
  function AddIf(form: map<string, string>, key: string, present: bool, value: string): (r: map<string, string>)
    ensures r.Keys == form.Keys + (if present then {key} else {})
    ensures forall k :: k in form && k != key ==> r[k] == form[k]
    ensures present ==> r[key] == value
  {
    if present then form[key := value] else form
  }

  lemma OptionalKeysAreNew()
    ensures "email" !in BaseFormKeys && "phone" !in BaseFormKeys && "email" != "phone"
  {
    assert "email"[0] == 'e' && "phone"[0] == 'p';
  }

  /** The base fields, then `email` and `phone` only when they are given and non-empty. */
  function BuildFormData(cfg: Config, hash: string -> string, p: PaymentParams): (form: map<string, string>)
    ensures form.Keys == BaseFormKeys
                         + (if Truthy(p.customerEmail) then {"email"} else {})
                         + (if Truthy(p.customerPhone) then {"phone"} else {})
    ensures "email" in form ==> form["email"] == p.customerEmail.value
    ensures "phone" in form ==> form["phone"] == SanitizePhone(p.customerPhone.value)
  {
    OptionalKeysAreNew();
    var withEmail := AddIf(BaseForm(cfg, hash, p), "email", Truthy(p.customerEmail), OrElse(p.customerEmail, ""));
    AddIf(withEmail, "phone", Truthy(p.customerPhone), SanitizePhone(OrElse(p.customerPhone, "")))
  }

  /** The optional fields never overwrite a base field. */
  lemma BaseFieldsKept(cfg: Config, hash: string -> string, p: PaymentParams)
    ensures forall k :: k in BaseFormKeys ==> BuildFormData(cfg, hash, p)[k] == BaseForm(cfg, hash, p)[k]
  {
    var form := BuildFormData(cfg, hash, p);
    var base := BaseForm(cfg, hash, p);
    OptionalKeysAreNew();
    forall k | k in BaseFormKeys
      ensures form[k] == base[k]
    {
      assert k != "email" && k != "phone";
    }
  }

  /** The form's amount field reads back as the amount that was signed. */
  lemma FormAmountRoundTrip(cfg: Config, hash: string -> string, p: PaymentParams)
    requires p.amount >= 0
    ensures var form := BuildFormData(cfg, hash, p);
      AllDigits(form["amount"]) && DigitsValue(form["amount"]) == p.amount
  {
    NatToStringRoundTrip(p.amount);
  }
}
