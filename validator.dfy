/** The event validator `validate_field` and the handler's guard on its
    result. */
module Validator {
  import opened Py

  /** The keys the handler requires of every event. */
  const RequiredFields: seq<string> := ["layer_name", "s3_bucket", "libraries", "action"]

  /** `str(xs)` for a list of names, rendered as `['a', 'b']`. */
  function Repr(xs: seq<string>): (r: string)
    ensures |r| >= 2 && r[0] == '[' && r[|r| - 1] == ']'
  {
    "[" + ReprItems(xs) + "]"
  }

  function ReprItems(xs: seq<string>): string {
    if xs == [] then ""
    else if |xs| == 1 then "'" + xs[0] + "'"
    else "'" + xs[0] + "', " + ReprItems(xs[1..])
  }

  /** The required names that are not keys of the event, in `required` order. */
  function MissingKeys(event: Event, required: seq<string>): (r: seq<string>)
    ensures forall x :: x in r <==> x in required && x !in Keys(event)
    ensures |r| <= |required|
  {
    if required == [] then []
    else (if required[0] in Keys(event) then [] else [required[0]]) + MissingKeys(event, required[1..])
  }

  /** The missing-keys list keeps the order of `required`: it is computed
      piecewise over any split of `required`. */
  lemma {:induction false} MissingKeysAppend(event: Event, a: seq<string>, b: seq<string>)
    ensures MissingKeys(event, a + b) == MissingKeys(event, a) + MissingKeys(event, b)
  {
    if a != [] {
      var head := if a[0] in Keys(event) then [] else [a[0]];
      assert (a + b)[0] == a[0];
      assert (a + b)[1..] == a[1..] + b;
      assert MissingKeys(event, a + b) == head + MissingKeys(event, a[1..] + b);
      MissingKeysAppend(event, a[1..], b);
      assert MissingKeys(event, a) == head + MissingKeys(event, a[1..]);
      assert head + (MissingKeys(event, a[1..]) + MissingKeys(event, b))
          == (head + MissingKeys(event, a[1..])) + MissingKeys(event, b);
    } else {
      assert a + b == b;
    }
  }

  /** `len` is applied to a value that has none: `not v` is false, so
      `len(v)` is evaluated and raises. */
  predicate LenFails(v: Value) {
    !Falsy(v) && !HasLen(v)
  }

  /** `not val or len(val) <= 0`, evaluated left to right. */
  function IsEmptyValue(v: Value): (r: Result<bool>)
    ensures r.Err? <==> LenFails(v)
    ensures r.Ok? ==> r.value == Falsy(v)
  {
    if Falsy(v) then Ok(true)
    else if HasLen(v) then Ok(Len(v) <= 0)
    else Err(TypeError)
  }

  /** The comprehension over `event.items()` that collects the keys whose
      value is empty; it raises on the first value `len` rejects. */
  function MissingValues(event: Event): (r: Result<seq<string>>)
    ensures r.Err? <==> exists i :: 0 <= i < |event| && LenFails(event[i].1)
    ensures r.Err? ==> r.error == TypeError
    ensures r.Ok? ==> forall k :: k in r.value <==>
      exists i :: 0 <= i < |event| && event[i].0 == k && Falsy(event[i].1)
  {
    if event == [] then Ok([])
    else
      var (k, v) := event[0];
      match IsEmptyValue(v)
      case Err(e) => Err(e)
      case Ok(empty) =>
        var rest := MissingValues(event[1..]);
        assert forall i :: 1 <= i < |event| ==> event[i] == event[1..][i - 1];
        if rest.Err? then rest
        else Ok((if empty then [k] else []) + rest.value)
  }

  /** `validate_field(event, required)`: a "Missing Keys" clause when some
      required name is absent, followed by a "Missing values" clause when
      some value is empty; it raises when `len` rejects a value. */
  function ValidateField(event: Event, required: seq<string>): (r: Result<string>)
    ensures r.Err? <==> exists i :: 0 <= i < |event| && LenFails(event[i].1)
    ensures r.Err? ==> r.error == TypeError
  {
    var keys := MissingKeys(event, required);
    match MissingValues(event)
    case Err(e) => Err(e)
    case Ok(values) =>
      var fields := if keys != [] then "Missing Keys: " + Repr(keys) else "";
      Ok(if values != [] then fields + "*** Missing values: " + Repr(values) else fields)
  }

  /** The validator reports nothing exactly when every required name is a
      key and no value of the event, required or not, is empty. */
  lemma ValidateFieldEmptyIff(event: Event, required: seq<string>)
    requires ValidateField(event, required).Ok?
    ensures ValidateField(event, required).value == "" <==>
      (forall x :: x in required ==> x in Keys(event))
      && (forall i :: 0 <= i < |event| ==> !Falsy(event[i].1))
  {
    var keys := MissingKeys(event, required);
    var values := MissingValues(event).value;
    forall i | 0 <= i < |event| && Falsy(event[i].1)
      ensures event[i].0 in values
    {
    }
    if values != [] {
      assert values[0] in values;
    }
    if keys != [] {
      assert keys[0] in keys;
    }
  }

  /** The diagnostic is the missing-keys clause when a required name is
      absent, followed directly by the missing-values clause when a value
      is empty; each clause is left out when nothing is missing from it. */
  lemma ValidateFieldClauses(event: Event, required: seq<string>)
    requires ValidateField(event, required).Ok?
    ensures var keys := MissingKeys(event, required);
      keys != [] ==> "Missing Keys: " + Repr(keys) <= ValidateField(event, required).value
    ensures var values := MissingValues(event).value;
      values != [] ==> exists p :: ValidateField(event, required).value == p + "*** Missing values: " + Repr(values)
    ensures var keys := MissingKeys(event, required);
      var values := MissingValues(event).value;
      keys != [] ==>
        ValidateField(event, required).value
          == if values == [] then "Missing Keys: " + Repr(keys)
             else "Missing Keys: " + Repr(keys) + "*** Missing values: " + Repr(values)
    ensures var values := MissingValues(event).value;
      MissingKeys(event, required) == [] ==>
        ValidateField(event, required).value
          == if values == [] then "" else "*** Missing values: " + Repr(values)
  {
    var keys := MissingKeys(event, required);
    var values := MissingValues(event).value;
    var fields := if keys != [] then "Missing Keys: " + Repr(keys) else "";
    var v := ValidateField(event, required).value;
    ValidateFieldParts(event, required);
    assert fields <= v;
  }

  /** The result of the validator is its keys clause, then its values clause. */
  lemma ValidateFieldParts(event: Event, required: seq<string>)
    requires ValidateField(event, required).Ok?
    ensures var keys := MissingKeys(event, required);
      var values := MissingValues(event).value;
      var fields := if keys != [] then "Missing Keys: " + Repr(keys) else "";
      ValidateField(event, required).value
        == if values != [] then fields + "*** Missing values: " + Repr(values) else fields
  {
  }

  /** The handler's guard on the validation result as written:
      `not validate and len(validate) > 1`. It can only hold of an empty
      result, so it could never return a diagnostic. */
  predicate GuardAsWritten(validate: string): (holds: bool)
    ensures holds ==> validate == ""
  {
    validate == "" && |validate| > 1
  }

  /** The guard as written holds of no string, so no validation result
      ever ends the request. */
  lemma GuardAsWrittenNeverHolds(validate: string)
    ensures !GuardAsWritten(validate)
  {
  }

  /** A concrete event the written guard lets through: it names only the
      bucket, so validation reports three missing keys, yet the handler
      carries on. */
  lemma InvalidEventPassesGuard()
    ensures ValidateField([("s3_bucket", Str("b"))], RequiredFields).Ok?
    ensures ValidateField([("s3_bucket", Str("b"))], RequiredFields).value != ""
    ensures ValidateField([("s3_bucket", Str("b"))], RequiredFields).value
      == "Missing Keys: " + Repr(["layer_name", "libraries", "action"])
    ensures !GuardAsWritten(ValidateField([("s3_bucket", Str("b"))], RequiredFields).value)
  {
    BucketOnlyMissingKeys();
    NoValueMissing("s3_bucket", Str("b"));
  }

  /** The event `{"s3_bucket": "b"}` lacks the other three required keys. */
  lemma BucketOnlyMissingKeys()
    ensures MissingKeys([("s3_bucket", Str("b"))], RequiredFields) == ["layer_name", "libraries", "action"]
  {
    var event: Event := [("s3_bucket", Str("b"))];
    assert Keys(event) == ["s3_bucket"];
    assert RequiredFields[1..][1..] == ["libraries", "action"];
    assert RequiredFields[1..][1..][1..][1..] == [];
  }

  /** A one-item event whose value is not empty reports no missing value. */
  lemma NoValueMissing(k: string, v: Value)
    requires HasLen(v) && !Falsy(v)
    ensures MissingValues([(k, v)]) == Ok([])
  {
    var r := MissingValues([(k, v)]);
    assert !LenFails(v);
    assert r.Ok?;
    assert forall x :: x !in r.value;
  }

  /** The evidently intended guard: any non-empty validation result is
      returned to the caller. */
  predicate RejectsEvent(validate: string) {
    validate != ""
  }

  /** With the intended guard an event is turned away exactly when a
      required key is absent or some value is empty. */
  lemma RejectsExactlyInvalid(event: Event)
    requires ValidateField(event, RequiredFields).Ok?
    ensures RejectsEvent(ValidateField(event, RequiredFields).value) <==>
      (exists x :: x in RequiredFields && x !in Keys(event))
      || (exists i :: 0 <= i < |event| && Falsy(event[i].1))
  {
    ValidateFieldEmptyIff(event, RequiredFields);
  }
}
