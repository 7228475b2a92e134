/**
 * The form validators of frontend/src/components/accounts/schemas.ts. `api_id` is coerced with
 * JavaScript's `Number`, then must be an integer and positive; the other fields are text.
 */
module AccountSchemas {
  import opened Wrappers
  import opened Decimal

  /** The form as typed: every field is text, the optional ones may be absent. */
  datatype RawAccount = RawAccount(apiId: string, apiHash: string, phone: string, name: Option<string>, username: Option<string>)

  datatype AccountForm = AccountForm(apiId: int, apiHash: string, phone: string, name: Option<string>, username: Option<string>)

  datatype Field = ApiIdField | ApiHashField | PhoneField | CodeField

  /** One failed check. A wrong type or a non-integer carries the library's own wording, which is
      not modelled; the other checks carry the message the schema gives. */
  datatype Issue = NotANumber(field: Field) | NotAnInteger(field: Field) | Invalid(field: Field, message: string)

  predicate IsInteger(v: real) {
    v == v.Floor as real
  }

  /** The checks on `api_id`: a value that is not a number fails alone; otherwise integer and
      positive are checked independently. */
  function ApiIdIssues(raw: string): (r: seq<Issue>)
    ensures JsNumber(raw).None? ==> r == [NotANumber(ApiIdField)]
    ensures r == [] <==> JsNumber(raw).Some? && IsInteger(JsNumber(raw).value) && JsNumber(raw).value > 0.0
  {
    match JsNumber(raw)
    case None => [NotANumber(ApiIdField)]
    case Some(v) =>
      (if IsInteger(v) then [] else [NotAnInteger(ApiIdField)]) +
      (if v > 0.0 then [] else [Invalid(ApiIdField, "API ID must be a positive integer")])
  }

  function RequiredIssues(value: string, field: Field, message: string): (r: seq<Issue>)
    ensures r == [] <==> value != ""
    ensures value == "" ==> r == [Invalid(field, message)]
  {
    if |value| < 1 then [Invalid(field, message)] else []
  }

  /** `accountSchema`: every issue of every field, or the parsed form. */
  function ValidateAccount(raw: RawAccount): (r: Result<AccountForm, seq<Issue>>)
    ensures r.Ok? <==> ApiIdIssues(raw.apiId) == [] && raw.apiHash != "" && raw.phone != ""
    ensures r.Ok? ==>
      r.value.apiId > 0 && JsNumber(raw.apiId) == Some(r.value.apiId as real) &&
      r.value.apiHash == raw.apiHash && r.value.phone == raw.phone &&
      r.value.name == raw.name && r.value.username == raw.username
    ensures r.Err? ==>
      r.error == ApiIdIssues(raw.apiId) +
      RequiredIssues(raw.apiHash, ApiHashField, "API Hash is required") +
      RequiredIssues(raw.phone, PhoneField, "Phone number is required")
  {
    var issues := ApiIdIssues(raw.apiId) +
      RequiredIssues(raw.apiHash, ApiHashField, "API Hash is required") +
      RequiredIssues(raw.phone, PhoneField, "Phone number is required");
    if issues == [] then
      var v := JsNumber(raw.apiId).value;
      Ok(AccountForm(v.Floor, raw.apiHash, raw.phone, raw.name, raw.username))
    else Err(issues)
  }

  /** A positive id typed in decimal, with a hash and a phone, is accepted as given. */
  lemma AcceptsDecimalId(id: int, apiHash: string, phone: string, name: Option<string>, username: Option<string>)
    requires id > 0 && apiHash != "" && phone != ""
    ensures ValidateAccount(RawAccount(Show(id), apiHash, phone, name, username)) ==
      Ok(AccountForm(id, apiHash, phone, name, username))
  {
    JsNumberOfShow(id);
    assert (id as real).Floor == id;
  }

  /** An empty `api_id` reads as 0 and is rejected as not positive. */
  lemma EmptyApiIdRejected()
    ensures ApiIdIssues("") == [Invalid(ApiIdField, "API ID must be a positive integer")]
  {
    assert JsNumber("") == Some(0.0);
  }

  /** `codeSchema`. */
  function ValidateCode(code: string): (r: Result<string, seq<Issue>>)
    ensures r.Ok? <==> code != ""
    ensures r.Ok? ==> r.value == code
    ensures r.Err? ==> r.error == [Invalid(CodeField, "Code is required")]
  {
    var issues := RequiredIssues(code, CodeField, "Code is required");
    if issues == [] then Ok(code) else Err(issues)
  }
}
