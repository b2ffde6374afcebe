/** The declarative validation schemas of the authorization modals: each field
    has an ordered list of rules, a rule being a check and its message; the
    checks used are "non-empty", "at least n characters", "matches the e-mail
    pattern" and "equals another field". Also the mapping of a 400 response body
    onto field errors, and the rule that an error is shown only for a non-empty
    field. The e-mail pattern is a parameter. The `useForm` hook that runs the
    schemas is not part of this model. */
module FormSchema {
  import opened Common

  /** `formData`: field name to current value. */
  type Form = map<string, string>

  function FieldValue(form: Form, key: string): string {
    if key in form then form[key] else ""
  }

  datatype Check = Filled | MinLength(n: nat) | MatchesEmail | SameAs(other: string)

  datatype Rule = Rule(check: Check, message: string)

  type Schema = map<string, seq<Rule>>

  const RequiredMessage := "Required field"

  /** `check(val, formData)` */
  predicate Passes(c: Check, val: string, form: Form, emailTest: string -> bool) {
    match c
    case Filled => val != ""
    case MinLength(n) => |val| >= n
    case MatchesEmail => emailTest(val)
    case SameAs(other) => val == FieldValue(form, other)
  }

  /** The messages of the rules `val` fails, in declaration order. */
  function FailingMessages(rules: seq<Rule>, val: string, form: Form, emailTest: string -> bool): (msgs: seq<string>)
    ensures |msgs| <= |rules|
    ensures msgs == [] <==> forall i :: 0 <= i < |rules| ==> Passes(rules[i].check, val, form, emailTest)
    ensures |rules| > 0 && !Passes(rules[0].check, val, form, emailTest) ==> msgs != [] && msgs[0] == rules[0].message
  {
    if |rules| == 0 then []
    else
      var rest := FailingMessages(rules[1..], val, form, emailTest);
      assert forall i :: 1 <= i < |rules| ==> rules[i] == rules[1..][i - 1];
      if Passes(rules[0].check, val, form, emailTest) then rest else [rules[0].message] + rest
  }

  /** Every rule of every field in the schema passes. */
  predicate SchemaSatisfied(schema: Schema, form: Form, emailTest: string -> bool) {
    forall key :: key in schema ==> FailingMessages(schema[key], FieldValue(form, key), form, emailTest) == []
  }

  /** The field errors a failed request produces: a 400 response with a `data`
      body gives each key of the body its first message (`undefined` for an empty
      list); any other failure calls `setExternalErrors` not at all. */
  function ExternalErrors(failure: Outcome): (r: Option<map<string, Option<string>>>)
    ensures r.Some? <==> failure.HttpError? && failure.status == 400 && failure.body.Some?
  {
    match failure
    case HttpError(400, Some(data)) => Some(FirstMessages(data))
    case _ => None
  }

  /** key -> first message, for every key of the body. */
  function FirstMessages(data: map<string, seq<string>>): (r: map<string, Option<string>>)
    ensures r.Keys == data.Keys
    ensures forall k :: k in data && |data[k]| > 0 ==> r[k] == Some(data[k][0])
    ensures forall k :: k in data && |data[k]| == 0 ==> r[k] == None
  {
    map k | k in data :: if |data[k]| > 0 then Some(data[k][0]) else None
  }

  /** The `Object.keys(errorData).forEach(...)` loop that fills `serverErrors`. */
  method CollectServerErrors(errorData: map<string, seq<string>>) returns (serverErrors: map<string, Option<string>>)
    ensures serverErrors == FirstMessages(errorData)
  {
    serverErrors := map[];
    var keys := errorData.Keys;
    while keys != {}
      invariant keys <= errorData.Keys
      invariant serverErrors.Keys == errorData.Keys - keys
      invariant forall k :: k in serverErrors ==> serverErrors[k] == FirstMessages(errorData)[k]
      decreases keys
    {
      var key :| key in keys;
      serverErrors := serverErrors[key := if |errorData[key]| > 0 then Some(errorData[key][0]) else None];
      keys := keys - {key};
    }
  }

  /** `error={formData[key] && errors[key]}`: an error is shown only while the
      field is non-empty, and then it is the recorded one. */
  function DisplayedError(value: string, error: Option<string>): (shown: Option<string>)
    ensures shown.Some? ==> value != ""
    ensures value != "" ==> shown == error
  {
    if value == "" then None else error
  }
}
