# Heleerra payment-gateway client: verified model of its decision core

This project models the decision logic of the Python client `HeleerraAPI` for the Heleerra
payment gateway (`examples/python/heleerra_api.py`). It covers four parts:

- **Client configuration.** Construction lower-cases the environment and accepts only
  `sandbox` or `production`; anything else raises `ValueError`. A missing or empty webhook
  secret is replaced by the environment's default. `get_config` masks the merchant key.
- **Webhook authentication.** The check is false without a secret. Otherwise it compares the
  hex HMAC-SHA256 (RFC 2104 over FIPS 180-4 SHA-256) of the payload's text with the
  `x-signature` header. An exception during the comparison also gives false.
- **Webhook routing and dispatch.** A webhook with a bad signature gets the
  `Invalid signature` error reply. The exact `x-environment` value `sandbox` goes to the
  sandbox path; everything else, including a missing header, goes to production. There the
  `status` selects at most one of the four handlers `completed`, `failed`, `cancelled` and
  `expired`, and the reply is always `processed`.
- **Outbound payment validation.** `_validate_payment_data` checks, in a fixed order and
  stopping at the first failure: the required fields, the amount (at least 1.00), the
  currency (three letters), and the optional URLs (must start with `http`).

Modules:

- `Wrappers`: Option and Result.
- `Text`: ASCII `lower`, `isalpha` and `startswith`.
- `PyValues`: the Python values that reach the client, with truthiness and `dict.get`.
- `Crypto`: 32-byte digests, `hexdigest` and its decoder, and `hmac.compare_digest`.
- `PaymentValidation`: the validation as specification functions.
- `Client`: the configuration and webhook specification functions, and the class
  `HeleerraApi`.

The class's methods are proved against the specification functions. The handlers'
business effects exist in the source only as comments and logging. They are recorded here as
a trace of `Invocation(handler, payload)` values on the object (`trace`). This trace is what
"exactly one handler" and "no handler" are stated over.

HMAC-SHA256 and `json.dumps` are foreign library calls. They are parameters of type
`Crypto.Hmac` (strings to a 32-byte digest) and `Dict -> string`. So every property holds
for any HMAC and any serialisation. The one exception is the tampering lemma, which assumes
the two HMAC values differ.

Behaviour of the code worth noting:

- The signature covers `json.dumps(payload)`, a re-serialisation of the parsed payload
  (line 231), not the bytes received.
- The secret is the client's own `webhook_secret`. It is not chosen by the webhook's
  `x-environment` header.
- A status outside the four terminal ones fires no handler, and the reply is still
  `processed` (line 295).
- No payload is rejected as malformed. A payload whose `data` entry is present but not a
  dictionary makes `payload.get('data', {}).get(...)` raise `AttributeError` (lines 250 and
  271). This happens before any handler fires.
- Header keys are looked up exactly as `x-signature` and `x-environment` in the given
  dictionary. A dictionary holding `X-Signature` yields the empty signature, which never
  verifies.

Python details that are kept:

- `bool` is an `int` in Python, so `True` passes the amount check (`True < 1.00` is false).
- `hmac.compare_digest` raises `TypeError` on a non-ASCII `str`; the surrounding `except`
  turns this into false.
- A truthy currency or URL value that is not a string makes `len`, `isalpha` or
  `startswith` raise `TypeError` or `AttributeError`. That is `WrongType`.
- Because `or` short-circuits, a list or dict whose length is not 3 still raises the
  currency `ValueError`.

## Model

| member | source | states |
|---|---|---|
| Client.ResolveSecret | examples/python/heleerra_api.py:45-50 | the kept secret is never empty; a truthy supplied secret is kept; otherwise it is `test_webhook_secret` for `sandbox` and `webhook_secret` for any other environment |
| Client.DefaultSecretsDiffer | examples/python/heleerra_api.py:49-50 | the sandbox and production default secrets are different |
| Client.Configure | examples/python/heleerra_api.py:44-54 | construction succeeds iff the lower-cased environment is `sandbox` or `production`; on success the environment is the lower-cased one and the secret is the resolved one, never empty |
| Client.ConfigureAccepts | examples/python/heleerra_api.py:44-54 | construction succeeds exactly for the spellings of `sandbox` and `production` in any mix of upper and lower case |
| Client.HeleerraApi.constructor | examples/python/heleerra_api.py:41-50 | the fields hold the base URL, keys, lower-cased environment, timeout and resolved secret; the trace is empty |
| Client.HeleerraApi.New | examples/python/heleerra_api.py:29-54 | raises exactly when the configuration is rejected; otherwise gives a fresh valid client with the base URL, keys and timeout given, and the configured environment and secret |
| Client.MaskKey | examples/python/heleerra_api.py:382 | the masked key is the first min(8, length) characters of the key followed by `...` |
| Client.MaskHidesTail | examples/python/heleerra_api.py:382 | two keys that agree on their first eight characters have the same mask |
| Client.HeleerraApi.GetConfig | examples/python/heleerra_api.py:377-384 | reports the environment, base URL and masked key; `webhook_configured` iff a secret is set, hence always for a successfully constructed client |
| Crypto.HexDigest | examples/python/heleerra_api.py:197-201 | the hex digest has two characters per byte, all lower-case hex digits |
| Crypto.HexRoundTrip | examples/python/heleerra_api.py:197-201 | decoding a hex digest gives back the digest |
| Crypto.HexCanonical | examples/python/heleerra_api.py:197-201 | only a hex digest decodes, so the lower-case hex text of a digest is unique |
| Crypto.HexDigestInjective | examples/python/heleerra_api.py:201-204 | two hex digests are equal iff the digests are equal |
| Crypto.CompareDigest | examples/python/heleerra_api.py:203-213 | `compare_digest` raises iff a string is not ASCII; otherwise it is true iff the strings are equal |
| Client.VerifyWebhookSignature | examples/python/heleerra_api.py:192-213 | true iff a secret is set and the signature equals the hex HMAC of the payload; an empty signature never verifies |
| Client.SignedPayloadVerifies | examples/python/heleerra_api.py:196-209 | a signature made with the secret over the payload verifies |
| Client.TamperedPayloadFails | examples/python/heleerra_api.py:196-209 | a signature made over one text fails for a text whose HMAC differs |
| Client.DeclaredEnvironment | examples/python/heleerra_api.py:227 | a missing `x-environment` header reads as `production`; a present one is taken as is |
| Client.Header | examples/python/heleerra_api.py:226-228 | `headers.get(key, default)`: the header's value when present, the default otherwise |
| Client.DataAccessRaises | examples/python/heleerra_api.py:250-252 | `payload.get('data', {}).get(...)` raises iff what `get` yields is not a dictionary |
| Client.HandlerFor | examples/python/heleerra_api.py:281-289 | a handler is selected iff the status is exactly the string naming it |
| Client.SandboxWebhook | examples/python/heleerra_api.py:248-266 | replies `sandbox_processed` unless reading `data` raises |
| Client.ProductionWebhook | examples/python/heleerra_api.py:268-298 | fires at most one handler, with the payload; handler k fires iff `data` is readable and the status (default `unknown`) names k; the reply is always `processed` unless reading `data` raises |
| Client.Webhook | examples/python/heleerra_api.py:215-246 | a bad signature gives the `Invalid signature` reply and fires nothing; an authentic webhook declaring `sandbox` gets the sandbox handler's outcome and fires nothing; any other authentic webhook gets the production handler's outcome and firings; never more than one handler |
| Client.AuthenticTerminalStatus | examples/python/heleerra_api.py:226-298 | an authentic non-sandbox webhook with a terminal status fires exactly its handler once and replies `processed` |
| Client.AuthenticOtherStatus | examples/python/heleerra_api.py:268-298 | an authentic non-sandbox webhook whose status names no handler fires nothing and replies `processed` |
| Client.HeleerraApi.Process | examples/python/heleerra_api.py:323-375 | a `_process_*_payment` call appends exactly its own invocation to the trace |
| Client.HeleerraApi.HandleSandboxWebhook | examples/python/heleerra_api.py:248-266 | returns what the sandbox specification gives and records no handler |
| Client.HeleerraApi.HandleProductionWebhook | examples/python/heleerra_api.py:268-298 | returns the production specification's outcome and appends exactly its fired handlers to the trace |
| Client.HeleerraApi.HandleWebhook | examples/python/heleerra_api.py:215-246 | returns the webhook specification's outcome and appends exactly its fired handlers to the trace |
| PaymentValidation.AmountAccepted | examples/python/heleerra_api.py:308-310 | the amount passes iff it is a number of at least 1.00 or `True` (a Python `bool` is an `int`) |
| PaymentValidation.FirstMissing | examples/python/heleerra_api.py:302-306 | gives the first field that is missing or falsy, with all before it present; none iff all are present |
| PaymentValidation.CurrencyError | examples/python/heleerra_api.py:312-314 | no error iff the currency is a three-character alphabetic string; a failing string, list or dict of length other than 3 gives the currency `ValueError`; anything else gives a type error |
| PaymentValidation.UrlError | examples/python/heleerra_api.py:319-321 | an optional URL passes iff it is absent, falsy, or a string starting with `http`; a failing string gives the URL `ValueError`, any other failing value a type error |
| PaymentValidation.FirstUrlError | examples/python/heleerra_api.py:317-321 | no error iff every URL field passes; otherwise the error of the first failing field, all before it passing |
| PaymentValidation.PaymentDataError | examples/python/heleerra_api.py:300-321 | checks run in order: a missing field is a required one; the amount error is raised iff the required fields are set and the amount fails; a currency-stage error is the currency check's error after an accepted amount; a URL error is the first failing URL field's, after an accepted currency |
| PaymentValidation.PaymentDataAccepted | examples/python/heleerra_api.py:300-321 | validation passes iff required fields are set, the amount is a number of at least 1.00, the currency is three letters, and every given URL starts with `http` |
| PaymentValidation.MissingFieldFirst | examples/python/heleerra_api.py:302-306 | the missing-field error names the first of `payment_amount`, `currency_code`, `ref_trx` that is missing or falsy |
| Client.HeleerraApi.ValidatePaymentData | examples/python/heleerra_api.py:300-321 | the two loops raise exactly the error the validation specification gives, and return normally exactly when it gives none |

## Left out

- `initiate_payment` and `verify_payment` (lines 58-179): outbound HTTP through `requests`, with no local decision logic beyond building headers.
- HMAC-SHA256 and SHA-256 internals, and the UTF-8 encoding of key and payload: parameters of the model (`Crypto.Hmac`).
- `json.dumps` (line 231): a parameter from payload to text; its canonicalisation is not modelled.
- The constant-time behaviour of `hmac.compare_digest`: timing cannot be expressed; the comparison is string equality plus the ASCII check.
- Logging everywhere, the `x-webhook-id` header (read only for logging, line 228), and the comment-only business effects of the `_process_*_payment` handlers: a handler call is only an entry in the trace.
- `PaymentValidation.CurrencyError`: letters are ASCII letters; Python's `isalpha` also accepts other Unicode letters, which the model rejects.
- Case folding: `Text.Lower` folds only ASCII capitals, where Python's `lower` folds all of Unicode. The set of accepted environments is still exact, because no non-ASCII character lower-cases to a letter of `sandbox` or `production`.
- Floating point: amounts are mathematical reals, so NaN and infinities (NaN passes `amount < 1.00` in Python) are not modelled.
- Python values outside the JSON-like shapes in `PyValues.Value` (tuples, bytes, custom objects, non-string dictionary keys and header values): not modelled. Such values could make `json.dumps`, `len` or `startswith` behave differently.
- Exception message texts (lines 54, 306-321): errors are the values of `ConfigError` and `PaymentError`, without their text.
- The `timeout` field is stored only; it is used only by the HTTP calls.
- `HeleerraAPIException` (lines 387-389) is unused, and the `__main__` example (lines 393-423) is a demo.
