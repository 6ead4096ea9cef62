/** The `HeleerraAPI` client: its configuration, webhook authentication, webhook routing
    to the four terminal-status handlers, and payment-data validation. HMAC-SHA256 and
    `json.dumps` are parameters; the handlers' business effects are recorded as a trace. */
module Client {
  import opened Wrappers
  import opened PyValues
  import Text
  import Crypto
  import PaymentValidation

  const BaseUrl := "https://heleerra.com"
  const Sandbox := "sandbox"
  const Production := "production"
  const SandboxDefaultSecret := "test_webhook_secret"
  const ProductionDefaultSecret := "webhook_secret"

  // ---------------------------------------------------------------- configuration

  datatype ConfigError = InvalidEnvironment

  /** The secret the client keeps: the one supplied when it is truthy, otherwise the
      default of the (lower-cased) environment. */
  function ResolveSecret(environment: string, supplied: Option<string>): (s: string)
    ensures s != ""
    ensures supplied.Some? && supplied.value != "" ==> s == supplied.value
    ensures (supplied.None? || supplied.value == "") && environment == Sandbox ==> s == SandboxDefaultSecret
    ensures (supplied.None? || supplied.value == "") && environment != Sandbox ==> s == ProductionDefaultSecret
  {
    if supplied.Some? && supplied.value != "" then supplied.value
    else if environment == Sandbox then SandboxDefaultSecret
    else ProductionDefaultSecret
  }

  /** The two defaults differ, so a sandbox default never authenticates for production. */
  lemma DefaultSecretsDiffer()
    ensures ResolveSecret(Sandbox, None) != ResolveSecret(Production, None)
  {
  }

  datatype Settings = Settings(environment: string, webhookSecret: string)

  /** The outcome of constructing a client: the environment it settles on and the secret
      it keeps, or the `ValueError` it raises. */
  function Configure(environment: string, webhookSecret: Option<string>): (r: Result<Settings, ConfigError>)
    ensures r.Success? <==> Text.Lower(environment) == Sandbox || Text.Lower(environment) == Production
    ensures r.Success? ==> r.value.environment in {Sandbox, Production}
    ensures r.Success? ==> r.value.environment == Text.Lower(environment)
    ensures r.Success? ==> r.value.webhookSecret != ""
    ensures r.Success? ==> r.value.webhookSecret == ResolveSecret(Text.Lower(environment), webhookSecret)
  {
    var env := Text.Lower(environment);
    var secret := ResolveSecret(env, webhookSecret);
    if env != Sandbox && env != Production then Failure(InvalidEnvironment)
    else Success(Settings(env, secret))
  }

  /** Construction succeeds exactly for the spellings of `sandbox` and `production` in
      any mix of upper and lower case. */
  lemma ConfigureAccepts(environment: string, webhookSecret: Option<string>)
    ensures Configure(environment, webhookSecret).Success? <==>
      Text.SpellsIgnoringCase(environment, Sandbox) || Text.SpellsIgnoringCase(environment, Production)
  {
  }

  /** `merchant_key[:8] + '...'`. */
  function MaskKey(key: string): (m: string)
    ensures |m| == (if |key| < 8 then |key| else 8) + 3
    ensures m[|m| - 3..] == "..."
    ensures Text.StartsWith(key, m[..|m| - 3])
  {
    (if |key| < 8 then key else key[..8]) + "..."
  }

  /** The mask reveals nothing past the eighth character of the key. */
  lemma MaskHidesTail(a: string, b: string)
    requires |a| >= 8 && |b| >= 8 && a[..8] == b[..8]
    ensures MaskKey(a) == MaskKey(b)
  {
  }

  datatype ConfigView = ConfigView(environment: string, baseUrl: string, merchantKey: string, webhookConfigured: bool)

  // ---------------------------------------------------------------- webhooks

  /** `hmac.compare_digest(hexdigest(HMAC(secret, payload)), signature)`, false without a
      secret and false when the comparison raises. */
  function VerifyWebhookSignature(secret: string, payload: string, signature: string, hmac: Crypto.Hmac): (ok: bool)
    ensures ok <==> secret != "" && signature == Crypto.HexDigest(hmac(secret, payload))
    ensures signature == "" ==> !ok
  {
    if secret == "" then false
    else
      var expected := Crypto.HexDigest(hmac(secret, payload));
      match Crypto.CompareDigest(expected, signature)
      case None => false
      case Some(equal) => equal
  }

  /** A signature made with the secret over the payload always verifies. */
  lemma SignedPayloadVerifies(secret: string, payload: string, hmac: Crypto.Hmac)
    requires secret != ""
    ensures VerifyWebhookSignature(secret, payload, Crypto.HexDigest(hmac(secret, payload)), hmac)
  {
  }

  /** A signature made over one text does not verify another text whose HMAC differs. */
  lemma TamperedPayloadFails(secret: string, signed: string, received: string, hmac: Crypto.Hmac)
    requires hmac(secret, received) != hmac(secret, signed)
    ensures !VerifyWebhookSignature(secret, received, Crypto.HexDigest(hmac(secret, signed)), hmac)
  {
    Crypto.HexDigestInjective(hmac(secret, received), hmac(secret, signed));
  }

  /** The four terminal-status handlers `_process_<status>_payment`. */
  datatype Handler = CompletedHandler | FailedHandler | CancelledHandler | ExpiredHandler

  function StatusName(h: Handler): (name: string)
  {
    match h
    case CompletedHandler => "completed"
    case FailedHandler => "failed"
    case CancelledHandler => "cancelled"
    case ExpiredHandler => "expired"
  }

  /** One call of a handler, with the payload it was given. */
  datatype Invocation = Invocation(handler: Handler, payload: Dict)

  /** The response dictionary `{'status': ..., 'message': ...}`. */
  datatype Reply = Reply(status: string, message: string)

  const InvalidSignatureReply := Reply("error", "Invalid signature")
  const SandboxReply := Reply("sandbox_processed", "Webhook processed in sandbox mode")
  const ProcessedReply := Reply("processed", "Webhook processed successfully")

  /** A webhook call returns a reply, or raises `AttributeError` when the payload's
      `data` entry is not a dictionary (`payload.get('data', {}).get(...)`). */
  datatype Outcome = Returned(reply: Reply) | RaisedAttributeError

  /** What a webhook call returns and which handlers it fires, in order. */
  datatype Handling = Handling(outcome: Outcome, fired: seq<Invocation>)

  /** `headers.get(key, default)`. */
  function Header(headers: map<string, string>, key: string, default: string): (value: string)
    ensures key in headers ==> value == headers[key]
    ensures key !in headers ==> value == default
  {
    if key in headers then headers[key] else default
  }

  /** The environment a webhook declares; a missing header means production. */
  function DeclaredEnvironment(headers: map<string, string>): (env: string)
    ensures "x-environment" !in headers ==> env == Production
    ensures "x-environment" in headers ==> env == headers["x-environment"]
  {
    Header(headers, "x-environment", Production)
  }

  /** `payload.get('data', {})` raises when `data` holds something without `.get`. */
  predicate DataAccessRaises(payload: Dict): (raises: bool)
    ensures raises <==> !Get(payload, "data", PyDict(map[])).PyDict?
  {
    "data" in payload && !payload["data"].PyDict?
  }

  /** The handler a status selects, if any. */
  function HandlerFor(status: Value): (h: Option<Handler>)
    ensures forall k :: h == Some(k) <==> status == PyStr(StatusName(k))
  {
    match status
    case PyStr(s) =>
      if s == "completed" then Some(CompletedHandler)
      else if s == "failed" then Some(FailedHandler)
      else if s == "cancelled" then Some(CancelledHandler)
      else if s == "expired" then Some(ExpiredHandler)
      else None
    case _ => None
  }

  /** `_handle_sandbox_webhook`: no handler, a fixed reply. */
  function SandboxWebhook(payload: Dict): (o: Outcome)
    ensures o.RaisedAttributeError? <==> DataAccessRaises(payload)
    ensures o.Returned? ==> o.reply == SandboxReply
  {
    if DataAccessRaises(payload) then RaisedAttributeError else Returned(SandboxReply)
  }

  /** `_handle_production_webhook`: at most one handler, the one the status names. */
  function ProductionWebhook(payload: Dict): (h: Handling)
    ensures h.outcome.RaisedAttributeError? <==> DataAccessRaises(payload)
    ensures h.outcome.Returned? ==> h.outcome.reply == ProcessedReply
    ensures |h.fired| <= 1
    ensures forall v :: v in h.fired ==> v.payload == payload
    ensures forall k :: Invocation(k, payload) in h.fired <==>
      !DataAccessRaises(payload) && Get(payload, "status", PyStr("unknown")) == PyStr(StatusName(k))
  {
    var status := Get(payload, "status", PyStr("unknown"));
    if DataAccessRaises(payload) then Handling(RaisedAttributeError, [])
    else match HandlerFor(status)
      case Some(k) => Handling(Returned(ProcessedReply), [Invocation(k, payload)])
      case None => Handling(Returned(ProcessedReply), [])
  }

  /** `handle_webhook`: authenticate `json.dumps(payload)`, then route on `x-environment`. */
  function Webhook(secret: string, payload: Dict, headers: map<string, string>,
                   hmac: Crypto.Hmac, dumps: Dict -> string): (h: Handling)
    ensures !VerifyWebhookSignature(secret, dumps(payload), Header(headers, "x-signature", ""), hmac) ==>
      h == Handling(Returned(InvalidSignatureReply), [])
    ensures DeclaredEnvironment(headers) == Sandbox ==> h.fired == []
    ensures h.fired != [] ==>
      secret != "" && Header(headers, "x-signature", "") == Crypto.HexDigest(hmac(secret, dumps(payload))) &&
      DeclaredEnvironment(headers) != Sandbox && h.outcome == Returned(ProcessedReply)
    ensures |h.fired| <= 1
    ensures (VerifyWebhookSignature(secret, dumps(payload), Header(headers, "x-signature", ""), hmac) &&
             DeclaredEnvironment(headers) == Sandbox) ==>
      h == Handling(SandboxWebhook(payload), [])
    ensures (VerifyWebhookSignature(secret, dumps(payload), Header(headers, "x-signature", ""), hmac) &&
             DeclaredEnvironment(headers) != Sandbox) ==>
      h == ProductionWebhook(payload)
  {
    var signature := Header(headers, "x-signature", "");
    var environment := DeclaredEnvironment(headers);
    if !VerifyWebhookSignature(secret, dumps(payload), signature, hmac) then
      Handling(Returned(InvalidSignatureReply), [])
    else if environment == Sandbox then
      Handling(SandboxWebhook(payload), [])
    else
      ProductionWebhook(payload)
  }

  /** An authentic production webhook for a terminal status fires exactly that status's
      handler once and replies `processed`; a missing `x-environment` counts as production. */
  lemma AuthenticTerminalStatus(secret: string, payload: Dict, headers: map<string, string>,
                                hmac: Crypto.Hmac, dumps: Dict -> string, k: Handler)
    requires secret != ""
    requires Header(headers, "x-signature", "") == Crypto.HexDigest(hmac(secret, dumps(payload)))
    requires DeclaredEnvironment(headers) != Sandbox
    requires Get(payload, "status", PyStr("unknown")) == PyStr(StatusName(k))
    requires !DataAccessRaises(payload)
    ensures Webhook(secret, payload, headers, hmac, dumps) == Handling(Returned(ProcessedReply), [Invocation(k, payload)])
  {
  }

  /** An authentic production webhook whose status names no handler (`pending`, a missing
      status, anything else) fires nothing and still replies `processed`. */
  lemma AuthenticOtherStatus(secret: string, payload: Dict, headers: map<string, string>,
                             hmac: Crypto.Hmac, dumps: Dict -> string)
    requires secret != ""
    requires Header(headers, "x-signature", "") == Crypto.HexDigest(hmac(secret, dumps(payload)))
    requires DeclaredEnvironment(headers) != Sandbox
    requires HandlerFor(Get(payload, "status", PyStr("unknown"))).None?
    requires !DataAccessRaises(payload)
    ensures Webhook(secret, payload, headers, hmac, dumps) == Handling(Returned(ProcessedReply), [])
  {
  }

  // ---------------------------------------------------------------- the client object

  class HeleerraApi {
    var baseUrl: string
    var merchantKey: string
    var apiKey: string
    var environment: string
    var webhookSecret: string
    var timeout: int
    /** The handler calls made so far, oldest first. */
    var trace: seq<Invocation>

    /** A client whose construction succeeded. */
    predicate Valid()
      reads this
    {
      (environment == Sandbox || environment == Production) && webhookSecret != ""
    }

    /** The field assignments of `__init__`, before the environment is validated. */
    constructor (merchantKey: string, apiKey: string, environment: string := Sandbox,
                 webhookSecret: Option<string> := None, timeout: int := 30)
      ensures this.baseUrl == BaseUrl && this.merchantKey == merchantKey && this.apiKey == apiKey
      ensures this.environment == Text.Lower(environment) && this.timeout == timeout
      ensures this.webhookSecret == ResolveSecret(this.environment, webhookSecret)
      ensures this.trace == []
    {
      this.baseUrl := BaseUrl;
      this.merchantKey := merchantKey;
      this.apiKey := apiKey;
      var env := Text.Lower(environment);
      this.environment := env;
      this.timeout := timeout;
      this.webhookSecret := if webhookSecret.Some? then webhookSecret.value else "";
      if webhookSecret.None? || webhookSecret.value == "" {
        this.webhookSecret := if env == Sandbox then SandboxDefaultSecret else ProductionDefaultSecret;
      }
      this.trace := [];
    }

    /** `HeleerraAPI(...)`: the constructed client, or the `ValueError` it raises. */
    static method New(merchantKey: string, apiKey: string, environment: string := Sandbox,
                      webhookSecret: Option<string> := None, timeout: int := 30)
      returns (r: Result<HeleerraApi, ConfigError>)
      ensures r.Failure? <==> Configure(environment, webhookSecret).Failure?
      ensures r.Success? ==> fresh(r.value) && r.value.Valid() && r.value.trace == []
      ensures r.Success? ==> Settings(r.value.environment, r.value.webhookSecret) == Configure(environment, webhookSecret).value
      ensures r.Success? ==> r.value.baseUrl == BaseUrl
      ensures r.Success? ==> r.value.merchantKey == merchantKey && r.value.apiKey == apiKey && r.value.timeout == timeout
    {
      var api := new HeleerraApi(merchantKey, apiKey, environment, webhookSecret, timeout);
      if api.environment != Sandbox && api.environment != Production {
        return Failure(InvalidEnvironment);
      }
      return Success(api);
    }

    /** `get_config`. */
    function GetConfig(): (c: ConfigView)
      reads this
      ensures c.webhookConfigured <==> webhookSecret != ""
      ensures c.merchantKey == MaskKey(merchantKey) && c.environment == environment && c.baseUrl == baseUrl
      ensures Valid() ==> c.webhookConfigured
    {
      ConfigView(environment, baseUrl, MaskKey(merchantKey), webhookSecret != "")
    }

    /** A `_process_<status>_payment` call: its only modelled effect is that it happened. */
    method Process(handler: Handler, payload: Dict)
      modifies this`trace
      ensures trace == old(trace) + [Invocation(handler, payload)]
    {
      trace := trace + [Invocation(handler, payload)];
    }

    /** `_handle_sandbox_webhook`. */
    method HandleSandboxWebhook(payload: Dict) returns (out: Outcome)
      ensures out == SandboxWebhook(payload)
    {
      if DataAccessRaises(payload) {
        return RaisedAttributeError;
      }
      return Returned(SandboxReply);
    }

    /** `_handle_production_webhook`. */
    method HandleProductionWebhook(payload: Dict) returns (out: Outcome)
      modifies this`trace
      ensures out == ProductionWebhook(payload).outcome
      ensures trace == old(trace) + ProductionWebhook(payload).fired
    {
      var status := Get(payload, "status", PyStr("unknown"));
      if DataAccessRaises(payload) {
        return RaisedAttributeError;
      }
      if status == PyStr("completed") {
        Process(CompletedHandler, payload);
      } else if status == PyStr("failed") {
        Process(FailedHandler, payload);
      } else if status == PyStr("cancelled") {
        Process(CancelledHandler, payload);
      } else if status == PyStr("expired") {
        Process(ExpiredHandler, payload);
      }
      return Returned(ProcessedReply);
    }

    /** `handle_webhook`. */
    method HandleWebhook(payload: Dict, headers: map<string, string>, hmac: Crypto.Hmac, dumps: Dict -> string)
      returns (out: Outcome)
      modifies this`trace
      ensures out == Webhook(webhookSecret, payload, headers, hmac, dumps).outcome
      ensures trace == old(trace) + Webhook(webhookSecret, payload, headers, hmac, dumps).fired
    {
      var signature := Header(headers, "x-signature", "");
      var environment := Header(headers, "x-environment", Production);
      if !VerifyWebhookSignature(webhookSecret, dumps(payload), signature, hmac) {
        return Returned(InvalidSignatureReply);
      }
      if environment == Sandbox {
        out := HandleSandboxWebhook(payload);
      } else {
        out := HandleProductionWebhook(payload);
      }
    }

    /** `_validate_payment_data`: the two loops stop at the first field that fails. */
    method ValidatePaymentData(data: Dict) returns (err: Option<PaymentValidation.PaymentError>)
      ensures err == PaymentValidation.PaymentDataError(data)
    {
      var required := PaymentValidation.RequiredFields;
      for i := 0 to |required|
        invariant forall j :: 0 <= j < i ==> Present(data, required[j])
      {
        if !(required[i] in data) || !Truthy(data[required[i]]) {
          return Some(PaymentValidation.MissingField(required[i]));
        }
      }
      assert Present(data, required[0]) && Present(data, required[1]);
      var amount := data["payment_amount"];
      if AsNumber(amount).None? || AsNumber(amount).value < 1.0 {
        return Some(PaymentValidation.InvalidAmount);
      }
      var currency := data["currency_code"];
      err := PaymentValidation.CurrencyError(currency);
      if err.Some? {
        return;
      }
      var urls := PaymentValidation.UrlFields;
      for i := 0 to |urls|
        invariant forall j :: 0 <= j < i ==> PaymentValidation.UrlError(data, urls[j]).None?
      {
        var field := urls[i];
        if field in data && Truthy(data[field]) {
          var url := data[field];
          if !url.PyStr? {
            return Some(PaymentValidation.WrongType(field));
          } else if !Text.StartsWith(url.s, "http") {
            return Some(PaymentValidation.InvalidUrl(field));
          }
        }
      }
      return None;
    }
  }
}
