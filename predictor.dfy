/**
 * The trained yield model seen from the outside: `predict_yield` either
 * returns a yield in hectograms per hectare or raises. The model itself is
 * not part of this project; callers receive it as a function parameter.
 */
module Predictor {
  import opened Schemas

  /** The exception classes the endpoint tells apart. */
  datatype ErrorKind = FileNotFound | Runtime | Value | OtherError

  datatype PyError = PyError(kind: ErrorKind, message: string)

  datatype Prediction = Predicted(hgHa: real) | Raised(error: PyError)

  /** Hectograms per tonne. */
  const HgPerTonne: real := 10000.0

  /** Hectograms per hectare to tonnes per hectare. */
  function TonnesPerHectare(hgHa: real): (t: real)
    ensures t * HgPerTonne == hgHa
    ensures (t > 0.0 <==> hgHa > 0.0) && (t == 0.0 <==> hgHa == 0.0)
  {
    hgHa / HgPerTonne
  }
}
