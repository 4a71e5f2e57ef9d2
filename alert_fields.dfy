/** Field values of one alert as the filters see them, after `astype(float)`. */
module AlertFields {

  datatype Option<T> = None | Some(value: T)

  datatype Result<T, E> = Ok(value: T) | Err(error: E)

  /** A float column entry: a real number, or NaN (Spark casts a missing value to NaN). */
  datatype Num = NaN | Real(v: real)

  /** `x > c` on a float: NaN fails every comparison. */
  predicate Gt(x: Num, c: real) {
    x.Real? && x.v > c
  }

  /** `x < c` on a float: NaN fails every comparison. */
  predicate Lt(x: Num, c: real) {
    x.Real? && x.v < c
  }

  /** Float subtraction; NaN propagates. */
  function Sub(x: Num, y: Num): Num {
    if x.Real? && y.Real? then Real(x.v - y.v) else NaN
  }

  /** Float division; NaN propagates, and a zero divisor also gives NaN in this model. */
  function Div(x: Num, y: Num): Num {
    if x.Real? && y.Real? && y.v != 0.0 then Real(x.v / y.v) else NaN
  }

  /** The photometric fields of one measurement, as passed to the magnitude correction `dc_mag`. */
  datatype Photometry = Photometry(
    fid: int, magpsf: Num, sigmapsf: Num, magnr: Num, sigmagnr: Num, magzpsci: Num, isdiffpos: string)

  /** What `dc_mag` returns: the corrected apparent magnitude and its error. */
  datatype Mag = Mag(mag: Num, err: Num)
}
