/**
 * The `/predict` handler (app.py:30-65): extract the features, apply the min-max scaler, then the
 * standard scaler, classify, look the code up and turn the outcome into the one `result` string
 * handed to the page template.
 */
module Handler {
  import opened Wrappers
  import opened CropTable
  import opened Features

  /**
   * The three artifacts loaded once at start-up, as opaque read-only functions over a single
   * sample. The classifier stands for `model.predict(...)` followed by taking element 0.
   */
  datatype Artifacts<!F> = Artifacts(
    minMax: seq<F> -> Result<seq<F>>,
    standard: seq<F> -> Result<seq<F>>,
    classifier: seq<F> -> Result<int>)

  const SuccessSuffix: string := " is the best crop to be cultivated right there"
  const UnknownMessage: string := "Could not determine the best crop."
  const ErrorPrefix: string := "Error: "

  /** Lines 32-48: every step may raise, and the first exception ends the pipeline. */
  function Classify<F>(rt: Runtime<F>, arts: Artifacts<F>, form: Form): Result<int> {
    var features :- Extract(rt, form);
    var mxFeatures :- arts.minMax(features);
    var scMxFeatures :- arts.standard(mxFeatures);
    arts.classifier(scMxFeatures)
  }

  /** Line 60: the sentence for a looked-up crop name. */
  function Sentence(crop: string): string {
    if crop != Sentinel then crop + SuccessSuffix else UnknownMessage
  }

  /** The `result` string the handler renders, exceptions included (lines 59-60 and 63-65). */
  function Predict<F>(rt: Runtime<F>, arts: Artifacts<F>, form: Form): string {
    match Classify(rt, arts, form)
    case Success(code) => Sentence(CropGet(code))
    case Failure(e) => ErrorPrefix + e
  }

  /** The three shapes a result can take. */
  ghost predicate IsResolvedSentence(s: string) {
    exists k :: k in CropDict && s == CropDict[k] + SuccessSuffix
  }

  predicate IsErrorMessage(s: string) {
    |ErrorPrefix| <= |s| && s[..|ErrorPrefix|] == ErrorPrefix
  }

  /** A mapped code gives the success sentence with that code's name. */
  lemma KnownCode<F>(rt: Runtime<F>, arts: Artifacts<F>, form: Form, k: int)
    requires Classify(rt, arts, form) == Success(k)
    requires 1 <= k <= 22
    ensures Predict(rt, arts, form) == CropDict[k] + SuccessSuffix
    ensures IsResolvedSentence(Predict(rt, arts, form))
  {
  }

  /** A classifier answering 1 yields the Rice sentence. */
  lemma CodeOneIsRice<F>(rt: Runtime<F>, arts: Artifacts<F>, form: Form)
    requires Classify(rt, arts, form) == Success(1)
    ensures Predict(rt, arts, form) == "Rice is the best crop to be cultivated right there"
  {
    KnownCode(rt, arts, form, 1);
    CodeOneIsRiceInTable();
    RiceSentence();
  }

  /** The success sentence for Rice, spelled out; the literals are compared in short pieces. */
  lemma RiceSentence()
    ensures "Rice" + SuccessSuffix == "Rice is the best crop to be cultivated right there"
  {
    var head, tail := " is the best crop", " to be cultivated right there";
    calc {
      "Rice" + SuccessSuffix;
      { SuffixPieces(); }
      "Rice" + (head + tail);
      ("Rice" + head) + tail;
      { RicePieces(); }
      "Rice is the best crop" + tail;
      { RicePieces(); }
      "Rice is the best crop to be cultivated right there";
    }
  }

  lemma SuffixPieces()
    ensures SuccessSuffix == " is the best crop" + " to be cultivated right there"
  {
  }

  lemma RicePieces()
    ensures "Rice" + " is the best crop" == "Rice is the best crop"
    ensures "Rice is the best crop" + " to be cultivated right there" == "Rice is the best crop to be cultivated right there"
  {
  }

  /** An unmapped code yields the "could not determine" sentence, which is not an error message. */
  lemma UnknownCode<F>(rt: Runtime<F>, arts: Artifacts<F>, form: Form, k: int)
    requires Classify(rt, arts, form) == Success(k)
    requires !(1 <= k <= 22)
    ensures Predict(rt, arts, form) == UnknownMessage
    ensures !IsErrorMessage(Predict(rt, arts, form))
  {
    UnknownIsNotError();
  }

  /** The unknown sentence does not carry the error prefix. */
  lemma UnknownIsNotError()
    ensures !IsErrorMessage(UnknownMessage)
  {
    assert UnknownMessage[0] == 'C' && ErrorPrefix[0] == 'E';
    assert UnknownMessage[..|ErrorPrefix|][0] == UnknownMessage[0];
  }

  /** A missing or non-numeric field gives an error message, whatever the artifacts are: none of them is consulted. */
  lemma FieldFailureSkipsArtifacts<F>(rt: Runtime<F>, arts: Artifacts<F>, other: Artifacts<F>, form: Form, i: int)
    requires 0 <= i < |FieldNames|
    requires ReadField(rt, form, FieldNames[i]).Failure?
    ensures Extract(rt, form).Failure?
    ensures Predict(rt, arts, form) == ErrorPrefix + Extract(rt, form).error
    ensures IsErrorMessage(Predict(rt, arts, form))
    ensures Predict(rt, arts, form) == Predict(rt, other, form)
  {
  }

  /** The classifier sees min-max scaling followed by standard scaling of the extracted features. */
  lemma ClassifierSeesScaledFeatures<F>(rt: Runtime<F>, arts: Artifacts<F>, form: Form, v: seq<F>, m: seq<F>, s: seq<F>)
    requires Extract(rt, form) == Success(v)
    requires arts.minMax(v) == Success(m)
    requires arts.standard(m) == Success(s)
    ensures Classify(rt, arts, form) == arts.classifier(s)
    ensures arts.classifier(s).Failure? ==> Predict(rt, arts, form) == ErrorPrefix + arts.classifier(s).error
  {
  }

  /** A failing transform ends the request with its message behind the error prefix. */
  lemma TransformFailure<F>(rt: Runtime<F>, arts: Artifacts<F>, form: Form, v: seq<F>)
    requires Extract(rt, form) == Success(v)
    requires arts.minMax(v).Failure? || arts.standard(arts.minMax(v).value).Failure?
    ensures arts.minMax(v).Failure? ==> Predict(rt, arts, form) == ErrorPrefix + arts.minMax(v).error
    ensures arts.minMax(v).Success? ==>
      Predict(rt, arts, form) == ErrorPrefix + arts.standard(arts.minMax(v).value).error
  {
  }

  /** A success sentence is longer than the unknown sentence and starts with a crop name's first letter. */
  lemma ResolvedIsNeitherUnknownNorError(name: string)
    requires name in CropDict.Values
    ensures name + SuccessSuffix != UnknownMessage
    ensures !IsErrorMessage(name + SuccessSuffix)
  {
    NamesAreNotSentinel();
    var k :| k in CropDict && CropDict[k] == name;
    assert |UnknownMessage| < |SuccessSuffix| <= |name + SuccessSuffix|;
    assert (name + SuccessSuffix)[..|ErrorPrefix|][0] == name[0] != ErrorPrefix[0];
  }

  /** Every result is exactly one of: a success sentence, the unknown sentence, an error message. */
  lemma ExactlyOneShape<F>(rt: Runtime<F>, arts: Artifacts<F>, form: Form)
    ensures var r := Predict(rt, arts, form);
      (IsResolvedSentence(r) || r == UnknownMessage || IsErrorMessage(r))
      && !(IsResolvedSentence(r) && r == UnknownMessage)
      && !(IsResolvedSentence(r) && IsErrorMessage(r))
      && !(r == UnknownMessage && IsErrorMessage(r))
  {
    UnknownIsNotError();
    var r := Predict(rt, arts, form);
    if IsResolvedSentence(r) {
      var k :| k in CropDict && r == CropDict[k] + SuccessSuffix;
      ResolvedIsNeitherUnknownNorError(CropDict[k]);
    }
    match Classify(rt, arts, form)
    case Success(code) =>
      if 1 <= code <= 22 {
        KnownCode(rt, arts, form, code);
      }
    case Failure(e) =>
  }

  /** The result depends on the seven named fields only; other form entries are ignored. */
  lemma OnlyNamedFieldsDecide<F>(rt: Runtime<F>, arts: Artifacts<F>, f1: Form, f2: Form)
    requires forall i :: 0 <= i < |FieldNames| ==> (FieldNames[i] in f1 <==> FieldNames[i] in f2)
    requires forall i :: 0 <= i < |FieldNames| && FieldNames[i] in f1 ==> f1[FieldNames[i]] == f2[FieldNames[i]]
    ensures Predict(rt, arts, f1) == Predict(rt, arts, f2)
  {
    OnlyNamedFieldsMatter(rt, f1, f2);
  }
}
