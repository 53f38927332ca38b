/** Reading the seven measurements of a `/predict` request into one feature vector (app.py:32-40). */
module Features {
  import opened Wrappers

  /** The submitted form: field name to the text the user typed. */
  type Form = map<string, string>

  /**
   * What the Python runtime does on the way, kept opaque: `float(text)` yields a feature of
   * type F or raises with some message, and indexing the form with an absent name raises
   * with a message that depends on that name.
   */
  datatype Runtime<F> = Runtime(parseFloat: string -> Result<F>, missingKey: string -> string)

  /** The form field names in the order of the feature vector; "Phosporus" is spelled as on the form. */
  const FieldNames: seq<string> := ["Nitrogen", "Phosporus", "Potassium", "Temperature", "Humidity", "pH", "Rainfall"]

  /** `float(request.form[name])`: a missing field and a non-numeric value both fail. */
  function ReadField<F>(rt: Runtime<F>, form: Form, name: string): Result<F> {
    if name in form then rt.parseFloat(form[name]) else Failure(rt.missingKey(name))
  }

  /**
   * Reference definition: read the given fields left to right, stopping at the first failure.
   * On success the i-th feature is the parsed value of the i-th name.
   */
  function ReadFields<F>(rt: Runtime<F>, form: Form, names: seq<string>): (r: Result<seq<F>>)
    ensures r.Success? <==> forall i :: 0 <= i < |names| ==> ReadField(rt, form, names[i]).Success?
    ensures r.Success? ==> |r.value| == |names|
    ensures r.Success? ==> forall i :: 0 <= i < |names| ==> r.value[i] == ReadField(rt, form, names[i]).value
    decreases |names|
  {
    if names == [] then Success([])
    else
      var x :- ReadField(rt, form, names[0]);
      var rest :- ReadFields(rt, form, names[1..]);
      Success([x] + rest)
  }

  /**
   * The seven bindings N, P, K, temp, humidity, ph, rainfall followed by
   * `feature_list = [N, P, K, temp, humidity, ph, rainfall]`: all or nothing.
   */
  function Extract<F>(rt: Runtime<F>, form: Form): Result<seq<F>> {
    var n :- ReadField(rt, form, "Nitrogen");
    var p :- ReadField(rt, form, "Phosporus");
    var k :- ReadField(rt, form, "Potassium");
    var temp :- ReadField(rt, form, "Temperature");
    var humidity :- ReadField(rt, form, "Humidity");
    var ph :- ReadField(rt, form, "pH");
    var rainfall :- ReadField(rt, form, "Rainfall");
    Success([n, p, k, temp, humidity, ph, rainfall])
  }

  /** The straight-line extraction is the left-to-right read of FieldNames, error message included. */
  lemma ExtractIsReadFields<F>(rt: Runtime<F>, form: Form)
    ensures Extract(rt, form) == ReadFields(rt, form, FieldNames)
  {
    var names := FieldNames;
    // Extract stops at the first failing field, and so does the reference read
    if ReadField(rt, form, names[0]).Failure? {
      FirstFailingFieldWins(rt, form, names, 0);
    } else if ReadField(rt, form, names[1]).Failure? {
      FirstFailingFieldWins(rt, form, names, 1);
    } else if ReadField(rt, form, names[2]).Failure? {
      FirstFailingFieldWins(rt, form, names, 2);
    } else if ReadField(rt, form, names[3]).Failure? {
      FirstFailingFieldWins(rt, form, names, 3);
    } else if ReadField(rt, form, names[4]).Failure? {
      FirstFailingFieldWins(rt, form, names, 4);
    } else if ReadField(rt, form, names[5]).Failure? {
      FirstFailingFieldWins(rt, form, names, 5);
    } else if ReadField(rt, form, names[6]).Failure? {
      FirstFailingFieldWins(rt, form, names, 6);
    } else {
      var v := ReadFields(rt, form, names).value;
      assert v == [v[0], v[1], v[2], v[3], v[4], v[5], v[6]];
    }
  }

  /**
   * Extraction succeeds exactly when every one of the seven fields is present and numeric, and then
   * yields seven features in the order Nitrogen, Phosporus, Potassium, Temperature, Humidity, pH, Rainfall.
   */
  lemma ExtractAllOrNothing<F>(rt: Runtime<F>, form: Form)
    ensures Extract(rt, form).Success? <==> forall i :: 0 <= i < |FieldNames| ==> ReadField(rt, form, FieldNames[i]).Success?
    ensures Extract(rt, form).Success? ==> |Extract(rt, form).value| == |FieldNames| == 7
    ensures Extract(rt, form).Success? ==>
      forall i :: 0 <= i < 7 ==> Extract(rt, form).value[i] == ReadField(rt, form, FieldNames[i]).value
  {
    ExtractIsReadFields(rt, form);
  }

  /** When fields before position i are fine and field i fails, the request fails with field i's error. */
  lemma {:induction false} FirstFailingFieldWins<F>(rt: Runtime<F>, form: Form, names: seq<string>, i: int)
    requires 0 <= i < |names|
    requires forall j :: 0 <= j < i ==> ReadField(rt, form, names[j]).Success?
    requires ReadField(rt, form, names[i]).Failure?
    ensures ReadFields(rt, form, names) == Failure(ReadField(rt, form, names[i]).error)
    decreases i
  {
    if i > 0 {
      FirstFailingFieldWins(rt, form, names[1..], i - 1);
    }
  }

  /** Only the seven named fields matter: forms that agree on them extract alike, whatever else they hold. */
  lemma OnlyNamedFieldsMatter<F>(rt: Runtime<F>, f1: Form, f2: Form)
    requires forall i :: 0 <= i < |FieldNames| ==> (FieldNames[i] in f1 <==> FieldNames[i] in f2)
    requires forall i :: 0 <= i < |FieldNames| && FieldNames[i] in f1 ==> f1[FieldNames[i]] == f2[FieldNames[i]]
    ensures Extract(rt, f1) == Extract(rt, f2)
  {
    forall i | 0 <= i < |FieldNames| ensures ReadField(rt, f1, FieldNames[i]) == ReadField(rt, f2, FieldNames[i]) {
    }
    ExtractIsReadFields(rt, f1);
    ExtractIsReadFields(rt, f2);
    SameFieldsReadAlike(rt, f1, f2, FieldNames);
  }

  lemma {:induction false} SameFieldsReadAlike<F>(rt: Runtime<F>, f1: Form, f2: Form, names: seq<string>)
    requires forall i :: 0 <= i < |names| ==> ReadField(rt, f1, names[i]) == ReadField(rt, f2, names[i])
    ensures ReadFields(rt, f1, names) == ReadFields(rt, f2, names)
    decreases |names|
  {
    if names != [] {
      assert ReadField(rt, f1, names[0]) == ReadField(rt, f2, names[0]);
      SameFieldsReadAlike(rt, f1, f2, names[1..]);
    }
  }
}
