# AgriPredict `/predict` handler in Dafny

AgriPredict serves a pre-trained crop classifier through a web form. A user posts seven soil and
climate measurements. The `/predict` handler turns them into one `result` sentence naming the
recommended crop. This project models that handler and proves what its result string can be.

The handler is pure request-to-string logic, so it is modelled with datatypes, functions and lemmas:

- `Features` (Features.dfy): all-or-nothing reading of the form fields `Nitrogen`, `Phosporus`
  (spelled as on the form), `Potassium`, `Temperature`, `Humidity`, `pH` and `Rainfall`.
  The result is a seven-element feature vector in that order. `Extract` is written as the same
  seven bindings as the handler. `ReadFields` is a left-to-right reference definition over
  `FieldNames`, and a lemma proves the two equal.
- `CropTable` (CropTable.dfy): the 22-entry `crop_dict` and `crop_dict.get(code, "Unknown crop")`.
- `Handler` (Handler.dfy): min-max scaler, then standard scaler, then classifier. Also the
  three-way result sentence, and the conversion of any exception into `"Error: " + message`.
- `ScalingOrder` (ScalingOrder.dfy): one concrete pair of stand-in scalers (add 1, then double).
  For this pair, swapping the scalers changes the result.

The numeric collaborators are parameters without an interpretation:
- `Runtime.parseFloat` is Python's `float(text)`, which either yields a feature or raises.
- `Runtime.missingKey` is the message raised for an absent form field.
- `Artifacts.minMax`, `Artifacts.standard` and `Artifacts.classifier` are the three loaded pickles.
  Each may fail with a message.

The feature type `F` is generic, so nothing depends on floating-point behaviour. Each request is a
function of the form, the runtime and the artifacts. No state is carried from one call to the next.

## Model

| member | source | states |
|---|---|---|
| Features.ReadField | app.py:32-38 | definition of one `float(request.form[name])`: an absent field raises the missing-key message, a present one is what `float` makes of its text; its properties are stated by `ReadFields`, `FirstFailingFieldWins` and `ExtractAllOrNothing` |
| Features.ReadFields | app.py:32-40 | reading a list of fields succeeds iff every field reads; the result then has one feature per name, the i-th being the i-th field's value |
| Features.Extract | app.py:32-40 | definition of the seven bindings and `feature_list`; its contract is stated by `ExtractIsReadFields` and `ExtractAllOrNothing` |
| Features.ExtractIsReadFields | app.py:32-40 | the seven sequential bindings equal the left-to-right read of `FieldNames`, failure message included |
| Features.ExtractAllOrNothing | app.py:32-40 | extraction succeeds iff all seven fields are present and numeric; the vector then has length 7 and position i holds field i in the order Nitrogen, Phosporus, Potassium, Temperature, Humidity, pH, Rainfall |
| Features.FirstFailingFieldWins | app.py:32-38 | when the fields before position i read and field i fails, the reading fails with exactly field i's message |
| Features.OnlyNamedFieldsMatter | app.py:32-38 | two forms that agree on the seven named fields extract identically, whatever other entries they hold |
| CropTable.CropGet | app.py:51-59 | a code in 1..22 gives its table name; the result is the "Unknown crop" default exactly when the code is outside 1..22 |
| CropTable.TableDomain | app.py:51-56 | the table's keys are exactly 1 through 22 |
| CropTable.NamesDistinct | app.py:51-56 | no two codes map to the same crop name |
| CropTable.NamesAreNotSentinel | app.py:51-60 | no crop name equals "Unknown crop", so the test on line 60 fails only for unmapped codes; no name starts with 'E' |
| Handler.Classify | app.py:31-48 | definition of extraction, min-max transform, standard transform and prediction, the first exception ending the chain; its contract is stated by `ClassifierSeesScaledFeatures`, `TransformFailure` and `FieldFailureSkipsArtifacts` |
| Handler.Sentence | app.py:60 | definition of the conditional expression on line 60; its contract is stated by `KnownCode`, `UnknownCode` and `ResolvedIsNeitherUnknownNorError` |
| Handler.Predict | app.py:30-65 | definition of the `result` string of `predict()`, with `except` turning any failure into "Error: " plus its message; its contract is stated by `KnownCode`, `CodeOneIsRice`, `UnknownCode`, `FieldFailureSkipsArtifacts`, `ExactlyOneShape` and `OnlyNamedFieldsDecide` |
| Handler.IsResolvedSentence | app.py:60 | definition of the success shape: some table name followed by " is the best crop to be cultivated right there" |
| Handler.IsErrorMessage | app.py:65 | definition of the error shape: the string starts with "Error: " |
| Handler.KnownCode | app.py:51-60 | a classified code k in 1..22 yields exactly the k-th name followed by " is the best crop to be cultivated right there" |
| Handler.CodeOneIsRice | app.py:52-60 | a classifier answer of 1 yields exactly "Rice is the best crop to be cultivated right there" |
| Handler.UnknownCode | app.py:59-60 | a code outside 1..22 yields exactly "Could not determine the best crop.", which is not an error message |
| Handler.UnknownIsNotError | app.py:60-65 | the unknown sentence does not start with "Error: " |
| Handler.FieldFailureSkipsArtifacts | app.py:31-65 | a missing or non-numeric field makes the result "Error: " plus the extraction message, and the result is the same for any artifacts: no scaler or classifier is consulted |
| Handler.ClassifierSeesScaledFeatures | app.py:44-48 | the classifier receives the standard scaling of the min-max scaling of the extracted vector; a classifier failure gives "Error: " plus its message |
| Handler.TransformFailure | app.py:44-65 | a failing min-max or standard transform gives "Error: " plus that transform's message |
| Handler.ResolvedIsNeitherUnknownNorError | app.py:60-65 | a success sentence differs from the unknown sentence and does not start with "Error: " |
| Handler.ExactlyOneShape | app.py:30-65 | every result is a success sentence for some mapped code, the unknown sentence, or an "Error: " message, and exactly one of these |
| Handler.OnlyNamedFieldsDecide | app.py:30-65 | forms that agree on the seven named fields get the same result |
| ScalingOrder.ScalingOrderMatters | app.py:44-45 | for one concrete pair of scalers (add 1, then double) and a classifier that tests the first feature, swapping the two scalers changes the result string on the all-zero form |

The lemmas `CropTable.CodeOneIsRiceInTable`, `Handler.RiceSentence`, `Handler.SuffixPieces`,
`Handler.RicePieces` and `Features.SameFieldsReadAlike`, and the functions `ScalingOrder.Shift`,
`ScalingOrder.Scale` and `ScalingOrder.SwapScalers`, are helpers for the lemmas above.

## Left out

- Loading the three pickles at start-up and aborting when one fails (app.py:7-17): file I/O and process lifecycle. The artifacts are a parameter of every request.
- Flask routing, `render_template` and `app.run` (app.py:1, 19-27, 62, 65, 67-68): the model stops at the `result` string handed to the template. An exception raised by `render_template` on line 62 would also be caught by the handler; that path is not modelled.
- Floating-point parsing, `np.array(...).reshape(1, -1)`, the two `transform` calls and `model.predict`: foreign numeric code, modelled as opaque functions that may fail. The one-row matrix is a sequence of features.
- Handler.Artifacts: the classifier field stands for `model.predict(...)` followed by `[0]`, returning an integer code. An empty prediction, or a label that is not an integer, is not modelled separately.
- The text of exception messages (`str(e)`) is opaque. Only the `"Error: "` prefix and which stage's message appears are stated.
- The `print` logging (app.py:16, 64) and the web server's concurrency: side effects with no contract.
- `crop_dict` is rebuilt on every request in the code. Here it is one constant. The behaviour is the same.
- A form field sent several times: the form is a plain map with one value per name.
