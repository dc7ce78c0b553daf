/**
 * `validate_prediction_input` (web/validators.py): parse the twelve form
 * fields in a fixed order, stopping at the first missing or non-integer
 * one, then check four ranges in a fixed order.
 */
module Validators {
  import opened Wrappers
  import Strings

  /** The form fields, in the order they are checked (and the order of the model's input columns). */
  const RequiredFields: seq<string> := [
    Age, "workclass", "education_num", "marital_status",
    "occupation", "relationship", "race", "sex",
    CapitalGain, CapitalLoss, HoursPerWeek, "native_country"
  ]

  /** The four fields that are range-checked. */
  const Age: string := "age"
  const CapitalGain: string := "capital_gain"
  const CapitalLoss: string := "capital_loss"
  const HoursPerWeek: string := "hours_per_week"

  /** The reasons validation can fail. */
  datatype Message =
    | MissingField(field: string)
    | InvalidValue(field: string)
    | AgeRange
    | HoursRange
    | NegativeGain
    | NegativeLoss

  /** The message text the form shows for each reason. */
  function Text(m: Message): string {
    match m
    case MissingField(field) => "Missing required field: " + field
    case InvalidValue(field) => "Invalid value for " + field + ": must be a number"
    case AgeRange => "Age must be between 0 and 120"
    case HoursRange => "Hours per week must be between 0 and 168"
    case NegativeGain => "Capital gain cannot be negative"
    case NegativeLoss => "Capital loss cannot be negative"
  }

  /**
   * One pass of the parse loop: an absent or blank value is missing, a value
   * `int()` rejects is invalid, anything else is its integer.
   */
  function CheckField(form: map<string, string>, field: string): (r: Result<int, Message>)
    ensures r.Ok? <==> field in form && Strings.ParseInt(form[field]).Some?
    ensures r.Ok? ==> r.value == Strings.ParseInt(form[field]).value
    ensures r.Err? ==> r.error == if field !in form || Strings.Strip(form[field]) == "" then MissingField(field) else InvalidValue(field)
  {
    if field !in form || Strings.Strip(form[field]) == "" then Err(MissingField(field))
    else
      match Strings.ParseInt(form[field])
      case None => Err(InvalidValue(field))
      case Some(v) => Ok(v)
  }

  /** The loop body as a value: `CheckField` with the form fixed. */
  function Checker(form: map<string, string>): string -> Result<int, Message> {
    field => CheckField(form, field)
  }

  /**
   * The parse loop running `check` over `fields`: the `parsed` dict, holding
   * exactly those fields with their integers, or the first failing field's message.
   */
  function ParseFields(check: string -> Result<int, Message>, fields: seq<string>): (r: Result<map<string, int>, Message>)
    ensures r.Ok? ==> forall f :: f in r.value <==> f in fields
    ensures r.Ok? ==> forall f :: f in r.value ==> check(f) == Ok(r.value[f])
    decreases |fields|
  {
    if fields == [] then Ok(map[])
    else
      var n := |fields| - 1;
      match ParseFields(check, fields[..n])
      case Err(e) => Err(e)
      case Ok(parsed) =>
        match check(fields[n])
        case Err(e) => Err(e)
        case Ok(v) =>
          assert forall f :: f in fields <==> f in fields[..n] || f == fields[n];
          Ok(parsed[fields[n] := v])
  }

  /** The parse loop succeeds exactly when every field passes its check. */
  lemma {:induction false} ParseFieldsOkIff(check: string -> Result<int, Message>, fields: seq<string>)
    ensures ParseFields(check, fields).Ok? <==> forall f :: f in fields ==> check(f).Ok?
    decreases |fields|
  {
    if fields != [] {
      var n := |fields| - 1;
      assert forall f :: f in fields <==> f in fields[..n] || f == fields[n];
      ParseFieldsOkIff(check, fields[..n]);
    }
  }

  /** A failed parse reports the first failing field: every field before it passed. */
  lemma {:induction false} ParseFieldsFirstError(check: string -> Result<int, Message>, fields: seq<string>) returns (k: nat)
    requires ParseFields(check, fields).Err?
    ensures k < |fields|
    ensures forall i :: 0 <= i < k ==> check(fields[i]).Ok?
    ensures check(fields[k]) == Err(ParseFields(check, fields).error)
    decreases |fields|
  {
    var n := |fields| - 1;
    assert forall i :: 0 <= i < n ==> fields[..n][i] == fields[i];
    if ParseFields(check, fields[..n]).Err? {
      k := ParseFieldsFirstError(check, fields[..n]);
    } else {
      ParseFieldsOkIff(check, fields[..n]);
      assert forall i :: 0 <= i < n ==> fields[i] in fields[..n];
      k := n;
    }
  }

  /** An error in a prefix of the fields is the error of the whole loop. */
  lemma {:induction false} ParseErrorPersists(check: string -> Result<int, Message>, fields: seq<string>, k: nat)
    requires k <= |fields| && ParseFields(check, fields[..k]).Err?
    ensures ParseFields(check, fields) == ParseFields(check, fields[..k])
    decreases |fields| - k
  {
    if k < |fields| {
      assert fields[..k + 1][..k] == fields[..k];
      ParseErrorPersists(check, fields, k + 1);
    } else {
      assert fields[..k] == fields;
    }
  }

  /** The four range checks, in the order age, hours per week, capital gain, capital loss; the first failure is the reason. */
  function RangeCheck(age: int, hours: int, gain: int, loss: int): (r: Option<Message>)
    ensures r.None? <==> 0 <= age <= 120 && 0 <= hours <= 168 && gain >= 0 && loss >= 0
    ensures r == Some(AgeRange) <==> !(0 <= age <= 120)
    ensures r == Some(HoursRange) <==> 0 <= age <= 120 && !(0 <= hours <= 168)
    ensures r == Some(NegativeGain) <==> 0 <= age <= 120 && 0 <= hours <= 168 && gain < 0
    ensures r == Some(NegativeLoss) <==> 0 <= age <= 120 && 0 <= hours <= 168 && gain >= 0 && loss < 0
  {
    if age < 0 || age > 120 then Some(AgeRange)
    else if hours < 0 || hours > 168 then Some(HoursRange)
    else if gain < 0 then Some(NegativeGain)
    else if loss < 0 then Some(NegativeLoss)
    else None
  }

  /** The range checks on a fully parsed form. */
  function RangeError(parsed: map<string, int>): Option<Message>
    requires Age in parsed && HoursPerWeek in parsed && CapitalGain in parsed && CapitalLoss in parsed
  {
    RangeCheck(parsed[Age], parsed[HoursPerWeek], parsed[CapitalGain], parsed[CapitalLoss])
  }

  /** What `validate_prediction_input(form)` returns, the message as its reason: `(parsed, None)` or `(None, reason)`. */
  function Validate(form: map<string, string>): (r: (Option<map<string, int>>, Option<Message>))
    ensures r.0.None? <==> r.1.Some?
  {
    match ParseFields(Checker(form), RequiredFields)
    case Err(e) => (None, Some(e))
    case Ok(parsed) =>
      assert Age in RequiredFields && HoursPerWeek in RequiredFields;
      assert CapitalGain in RequiredFields && CapitalLoss in RequiredFields;
      match RangeError(parsed)
      case Some(e) => (None, Some(e))
      case None => (Some(parsed), None)
  }

  /** Every required field is present and parses as an integer. */
  ghost predicate AllParse(form: map<string, string>) {
    forall f :: f in RequiredFields ==> CheckField(form, f).Ok?
  }

  /** The integer a parsing field holds. */
  function Value(form: map<string, string>, field: string): int
    requires CheckField(form, field).Ok?
  {
    CheckField(form, field).value
  }

  /**
   * Validation succeeds exactly when every field parses, age is in [0, 120],
   * hours per week in [0, 168] and both capital amounts are non-negative; no
   * other field is range-checked. The parsed map then holds exactly the
   * twelve fields, each the integer of its input.
   */
  lemma ValidateOkIff(form: map<string, string>)
    ensures Validate(form).0.Some? <==>
      && AllParse(form)
      && 0 <= Value(form, Age) <= 120
      && 0 <= Value(form, HoursPerWeek) <= 168
      && Value(form, CapitalGain) >= 0
      && Value(form, CapitalLoss) >= 0
    ensures Validate(form).0.Some? ==>
      var parsed := Validate(form).0.value;
      && (forall f :: f in parsed <==> f in RequiredFields)
      && (forall f :: f in parsed ==> parsed[f] == Value(form, f))
  {
    ParseFieldsOkIff(Checker(form), RequiredFields);
    if AllParse(form) {
      RangeValues(form);
    }
  }

  /** On a fully parsed form, the parsed map holds each field's value, and the range checks read those values. */
  lemma RangeValues(form: map<string, string>)
    requires AllParse(form)
    ensures ParseFields(Checker(form), RequiredFields).Ok?
    ensures var parsed := ParseFields(Checker(form), RequiredFields).value;
      && parsed[Age] == Value(form, Age) && parsed[HoursPerWeek] == Value(form, HoursPerWeek)
      && parsed[CapitalGain] == Value(form, CapitalGain) && parsed[CapitalLoss] == Value(form, CapitalLoss)
      && Validate(form) == if RangeError(parsed).Some? then (None, RangeError(parsed)) else (Some(parsed), None)
  {
    ParseFieldsOkIff(Checker(form), RequiredFields);
    var parsed := ParseFields(Checker(form), RequiredFields).value;
    assert Age in RequiredFields && HoursPerWeek in RequiredFields;
    assert CapitalGain in RequiredFields && CapitalLoss in RequiredFields;
    assert Checker(form)(Age) == CheckField(form, Age);
    assert Checker(form)(HoursPerWeek) == CheckField(form, HoursPerWeek);
    assert Checker(form)(CapitalGain) == CheckField(form, CapitalGain);
    assert Checker(form)(CapitalLoss) == CheckField(form, CapitalLoss);
  }

  /**
   * A parse failure reports the first field in the listed order that is
   * absent or blank ("missing") or that `int()` rejects ("invalid").
   */
  lemma ValidateFieldError(form: map<string, string>) returns (k: nat)
    requires !AllParse(form)
    ensures k < |RequiredFields|
    ensures forall i :: 0 <= i < k ==> CheckField(form, RequiredFields[i]).Ok?
    ensures var f := RequiredFields[k];
      Validate(form) == (None, Some(
        if f !in form || Strings.Strip(form[f]) == "" then MissingField(f) else InvalidValue(f)))
  {
    ParseFieldsOkIff(Checker(form), RequiredFields);
    k := ParseFieldsFirstError(Checker(form), RequiredFields);
  }

  /**
   * Once all fields parse, the range checks run in the order age, hours per
   * week, capital gain, capital loss, and the first one that fails is reported.
   */
  lemma ValidateRangeOrder(form: map<string, string>)
    requires AllParse(form)
    ensures Validate(form).1 == RangeCheck(Value(form, Age), Value(form, HoursPerWeek), Value(form, CapitalGain), Value(form, CapitalLoss))
  {
    RangeValues(form);
  }

  /** Once the parse loop has produced `parsed`, the result is that of the range checks. */
  lemma ValidateParsed(form: map<string, string>, parsed: map<string, int>)
    requires ParseFields(Checker(form), RequiredFields) == Ok(parsed)
    ensures Age in parsed && HoursPerWeek in parsed && CapitalGain in parsed && CapitalLoss in parsed
    ensures Validate(form) == if RangeError(parsed).Some? then (None, RangeError(parsed)) else (Some(parsed), None)
  {
  }

  /** Once the parse loop has failed with `e`, that is the result. */
  lemma ValidateParseError(form: map<string, string>, k: nat, e: Message)
    requires k <= |RequiredFields| && ParseFields(Checker(form), RequiredFields[..k]) == Err(e)
    ensures Validate(form) == (None, Some(e))
  {
    ParseErrorPersists(Checker(form), RequiredFields, k);
  }

  /** `validate_prediction_input(form_data)`: the parse loop with early returns, then the range checks. */
  method ValidatePredictionInput(form: map<string, string>) returns (parsed: Option<map<string, int>>, error: Option<string>)
    ensures parsed == Validate(form).0
    ensures error == if Validate(form).1.Some? then Some(Text(Validate(form).1.value)) else None
  {
    var p := ParseLoop(form, RequiredFields);
    if p.Err? {
      assert RequiredFields[..|RequiredFields|] == RequiredFields;
      ValidateParseError(form, |RequiredFields|, p.error);
      return None, Some(Text(p.error));
    }
    parsed, error := CheckRanges(form, p.value);
  }

  /**
   * The `for field in required_fields` loop: each field is looked up, checked
   * for blankness and parsed with `int()`, and the first failure ends the loop.
   */
  method ParseLoop(form: map<string, string>, fields: seq<string>) returns (r: Result<map<string, int>, Message>)
    ensures r == ParseFields(Checker(form), fields)
  {
    var p: map<string, int> := map[];
    for i := 0 to |fields|
      invariant ParseFields(Checker(form), fields[..i]) == Ok(p)
    {
      var field := fields[i];
      assert fields[..i + 1][..i] == fields[..i];
      assert Checker(form)(field) == CheckField(form, field);
      if field !in form || Strings.Strip(form[field]) == "" {
        ParseErrorPersists(Checker(form), fields, i + 1);
        return Err(MissingField(field));
      }
      var value := Strings.ParseInt(form[field]);
      if value.None? {
        ParseErrorPersists(Checker(form), fields, i + 1);
        return Err(InvalidValue(field));
      }
      p := p[field := value.value];
    }
    assert fields[..|fields|] == fields;
    return Ok(p);
  }

  /** The range checks of `validate_prediction_input` on the parsed fields, in the source's order. */
  method CheckRanges(form: map<string, string>, p: map<string, int>) returns (parsed: Option<map<string, int>>, error: Option<string>)
    requires ParseFields(Checker(form), RequiredFields) == Ok(p)
    ensures parsed == Validate(form).0
    ensures error == if Validate(form).1.Some? then Some(Text(Validate(form).1.value)) else None
  {
    ValidateParsed(form, p);
    if p[Age] < 0 || p[Age] > 120 {
      return None, Some(Text(AgeRange));
    }
    if p[HoursPerWeek] < 0 || p[HoursPerWeek] > 168 {
      return None, Some(Text(HoursRange));
    }
    if p[CapitalGain] < 0 {
      return None, Some(Text(NegativeGain));
    }
    if p[CapitalLoss] < 0 {
      return None, Some(Text(NegativeLoss));
    }
    return Some(p), None;
  }
}
