/** What `_validate_payment_data` checks before a payment is sent, as specification
    functions. Each Python exception becomes an error value; the checks run in a fixed
    order and the first failure decides the error. */
module PaymentValidation {
  import opened Wrappers
  import opened PyValues
  import Text

  const RequiredFields: seq<string> := ["payment_amount", "currency_code", "ref_trx"]
  const UrlFields: seq<string> := ["success_redirect", "failure_url", "cancel_redirect", "ipn_url"]

  /** The exceptions `_validate_payment_data` can raise. The first four are its own
      `ValueError`s; WrongType is a `TypeError` or `AttributeError` that Python raises
      when `len`, `isalpha` or `startswith` meets a value of the wrong type. */
  datatype PaymentError =
    | MissingField(field: string)
    | InvalidAmount
    | InvalidCurrency
    | InvalidUrl(field: string)
    | WrongType(field: string)

  /** Index of the first field of `fields` that is missing or falsy in `d`. */
  function FirstMissing(d: Dict, fields: seq<string>): (r: Option<nat>)
    ensures r.Some? ==> r.value < |fields| && !Present(d, fields[r.value])
    ensures r.Some? ==> forall j :: 0 <= j < r.value ==> Present(d, fields[j])
    ensures r.None? <==> forall j :: 0 <= j < |fields| ==> Present(d, fields[j])
  {
    if fields == [] then None
    else if !Present(d, fields[0]) then Some(0)
    else match FirstMissing(d, fields[1..])
      case None => None
      case Some(k) => Some(k + 1)
  }

  /** `not isinstance(amount, (int, float)) or amount < 1.00` does not hold. */
  predicate AmountAccepted(amount: Value): (ok: bool)
    ensures ok <==> (amount.PyNum? && amount.n >= 1.0) || amount == PyBool(true)
  {
    AsNumber(amount).Some? && AsNumber(amount).value >= 1.0
  }

  /** The currency test `len(currency) != 3 or not currency.isalpha()`, with the
      exceptions Python raises on values that have no `len` or no `isalpha`. */
  function CurrencyError(currency: Value): (r: Option<PaymentError>)
    ensures r.None? <==> currency.PyStr? && |currency.s| == 3 && Text.IsAlpha(currency.s)
    ensures r.Some? ==> r.value in {InvalidCurrency, WrongType("currency_code")}
    ensures currency.PyStr? && r.Some? ==> r == Some(InvalidCurrency)
    ensures (currency.PyList? && |currency.items| != 3) || (currency.PyDict? && |currency.entries| != 3) ==>
      r == Some(InvalidCurrency)
    ensures r == Some(WrongType("currency_code")) <==>
      !currency.PyStr? && !(currency.PyList? && |currency.items| != 3) && !(currency.PyDict? && |currency.entries| != 3)
  {
    match currency
    case PyStr(s) => if |s| != 3 || !Text.IsAlpha(s) then Some(InvalidCurrency) else None
    case PyList(items) => if |items| != 3 then Some(InvalidCurrency) else Some(WrongType("currency_code"))
    case PyDict(entries) => if |entries| != 3 then Some(InvalidCurrency) else Some(WrongType("currency_code"))
    case _ => Some(WrongType("currency_code"))
  }

  /** The check on one optional URL field: absent or falsy passes, a string must start
      with `http`, any other truthy value has no `startswith`. */
  function UrlError(d: Dict, field: string): (r: Option<PaymentError>)
    ensures r.None? <==> !Present(d, field) || (d[field].PyStr? && Text.StartsWith(d[field].s, "http"))
    ensures r.Some? ==> r.value in {InvalidUrl(field), WrongType(field)}
    ensures r.Some? ==> field in d && (r.value == InvalidUrl(field) <==> d[field].PyStr?)
  {
    if !Present(d, field) then None
    else match d[field]
      case PyStr(s) => if Text.StartsWith(s, "http") then None else Some(InvalidUrl(field))
      case _ => Some(WrongType(field))
  }

  /** The error of the first URL field of `fields` that fails its check. */
  function FirstUrlError(d: Dict, fields: seq<string>): (r: Option<PaymentError>)
    ensures r.None? <==> forall j :: 0 <= j < |fields| ==> UrlError(d, fields[j]).None?
    ensures r.Some? ==> exists j :: 0 <= j < |fields| && r == UrlError(d, fields[j]) &&
                                    forall k :: 0 <= k < j ==> UrlError(d, fields[k]).None?
  {
    if fields == [] then None
    else if UrlError(d, fields[0]).Some? then UrlError(d, fields[0])
    else
      var r := FirstUrlError(d, fields[1..]);
      assert r.Some? ==> exists j :: 0 <= j < |fields| && r == UrlError(d, fields[j]) &&
                                     forall k :: 0 <= k < j ==> UrlError(d, fields[k]).None? by {
        if r.Some? {
          var j :| 0 <= j < |fields| - 1 && r == UrlError(d, fields[1..][j]) &&
                   forall k :: 0 <= k < j ==> UrlError(d, fields[1..][k]).None?;
          assert forall k :: 0 <= k < j + 1 ==> UrlError(d, fields[k]).None?;
        }
      }
      r
  }

  /** The exception `_validate_payment_data(d)` raises, or None when it returns. The
      checks run in order: required fields, then amount, then currency, then URLs. */
  function PaymentDataError(d: Dict): (r: Option<PaymentError>)
    ensures r.Some? && r.value.MissingField? ==> r.value.field in RequiredFields && !Present(d, r.value.field)
    ensures r == Some(InvalidAmount) <==>
      Present(d, "payment_amount") && Present(d, "currency_code") && Present(d, "ref_trx") &&
      !AmountAccepted(d["payment_amount"])
    ensures r.Some? && !r.value.MissingField? ==>
      Present(d, "payment_amount") && Present(d, "currency_code") && Present(d, "ref_trx")
    ensures r.Some? && (r.value.InvalidCurrency? || r.value.InvalidUrl? || r.value.WrongType?) ==>
      AmountAccepted(d["payment_amount"])
    ensures r.Some? && (r.value.InvalidUrl? || (r.value.WrongType? && r.value.field != "currency_code")) ==>
      CurrencyError(d["currency_code"]).None? && r.value.field in UrlFields
    ensures r.Some? && (r.value == InvalidCurrency || r.value == WrongType("currency_code")) ==>
      r == CurrencyError(d["currency_code"])
    ensures r.Some? && (r.value.InvalidUrl? || (r.value.WrongType? && r.value.field in UrlFields)) ==>
      r == FirstUrlError(d, UrlFields)
  {
    match FirstMissing(d, RequiredFields)
    case Some(i) => Some(MissingField(RequiredFields[i]))
    case None =>
      assert Present(d, RequiredFields[0]) && Present(d, RequiredFields[1]) && Present(d, RequiredFields[2]);
      if !AmountAccepted(d["payment_amount"]) then Some(InvalidAmount)
      else if CurrencyError(d["currency_code"]).Some? then CurrencyError(d["currency_code"])
      else FirstUrlError(d, UrlFields)
  }

  /** Validation passes exactly for data with every required field set, an amount of at
      least 1.00, a three-letter currency code and every given URL starting with `http`. */
  lemma PaymentDataAccepted(d: Dict)
    ensures PaymentDataError(d).None? <==>
      Present(d, "payment_amount") && Present(d, "currency_code") && Present(d, "ref_trx") &&
      AmountAccepted(d["payment_amount"]) &&
      d["currency_code"].PyStr? && |d["currency_code"].s| == 3 && Text.IsAlpha(d["currency_code"].s) &&
      (forall f :: f in UrlFields && Present(d, f) ==> d[f].PyStr? && Text.StartsWith(d[f].s, "http"))
  {
    var required := Present(d, "payment_amount") && Present(d, "currency_code") && Present(d, "ref_trx");
    assert FirstMissing(d, RequiredFields).None? <==> required by {
      assert RequiredFields[0] == "payment_amount" && RequiredFields[1] == "currency_code" && RequiredFields[2] == "ref_trx";
    }
    var urlsOk := forall f :: f in UrlFields && Present(d, f) ==> d[f].PyStr? && Text.StartsWith(d[f].s, "http");
    assert FirstUrlError(d, UrlFields).None? <==> urlsOk by {
      assert forall f :: f in UrlFields <==> exists j :: 0 <= j < |UrlFields| && UrlFields[j] == f;
    }
  }

  /** A missing field is reported before any other check, and it is the first one
      missing in the order `payment_amount`, `currency_code`, `ref_trx`. */
  lemma MissingFieldFirst(d: Dict, f: string)
    ensures PaymentDataError(d) == Some(MissingField(f)) <==>
      exists i :: 0 <= i < |RequiredFields| && RequiredFields[i] == f && !Present(d, f) &&
                  forall j :: 0 <= j < i ==> Present(d, RequiredFields[j])
  {
  }
}
