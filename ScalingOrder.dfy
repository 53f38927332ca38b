/** Concrete stand-in artifacts showing that the order of the two scalers is observable. */
module ScalingOrder {
  import opened Wrappers
  import opened Features
  import opened Handler

  /** Adds c to every feature. */
  function Shift(v: seq<real>, c: real): seq<real> {
    seq(|v|, i requires 0 <= i < |v| => v[i] + c)
  }

  /** Multiplies every feature by c. */
  function Scale(v: seq<real>, c: real): seq<real> {
    seq(|v|, i requires 0 <= i < |v| => v[i] * c)
  }

  /** The same artifacts with the two scalers applied in the opposite order. */
  function SwapScalers<F>(arts: Artifacts<F>): Artifacts<F> {
    Artifacts(arts.standard, arts.minMax, arts.classifier)
  }

  /** Every field parses as 0 and every required field is present. */
  const ZeroRuntime: Runtime<real> := Runtime(text => Success(0.0), name => "missing " + name)
  const ZeroForm: Form := map[
    "Nitrogen" := "0", "Phosporus" := "0", "Potassium" := "0", "Temperature" := "0",
    "Humidity" := "0", "pH" := "0", "Rainfall" := "0"]

  /** "Min-max" adds 1, "standard" doubles, and the classifier answers 1 only for a first feature of 2. */
  const AffineArtifacts: Artifacts<real> := Artifacts(
    v => Success(Shift(v, 1.0)),
    v => Success(Scale(v, 2.0)),
    v => if |v| > 0 && v[0] == 2.0 then Success(1) else Success(0))

  /**
   * For one concrete pair of scalers (add 1, then double) and a classifier that tests the first
   * feature, swapping the two scalers changes the result string on the all-zero form.
   */
  lemma ScalingOrderMatters()
    ensures Predict(ZeroRuntime, AffineArtifacts, ZeroForm) != Predict(ZeroRuntime, SwapScalers(AffineArtifacts), ZeroForm)
  {
  }
}
