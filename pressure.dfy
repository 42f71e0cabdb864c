/** Pressure conversion (weather.py, `ceil(pressure / 1.333)`), done exactly
    on integers: 1.333 is 1333/1000, so the result is the least integer m
    with 1333 * m >= 1000 * hpa. */
module Pressure {

  /** Hectopascals to millimetres of mercury, rounded up. */
  function MmHg(hpa: int): (mm: int)
    ensures 1333 * mm >= 1000 * hpa
    ensures 1333 * (mm - 1) < 1000 * hpa
  {
    (1000 * hpa + 1332) / 1333
  }

  /** No smaller integer than the result is at least hpa / 1.333. */
  lemma MmHgIsLeast(hpa: int, m: int)
    requires 1333 * m >= 1000 * hpa
    ensures MmHg(hpa) <= m
  {
  }

  /** A higher pressure never reads lower. */
  lemma MmHgMonotonic(p: int, q: int)
    requires p <= q
    ensures MmHg(p) <= MmHg(q)
  {
  }

  /** Reference values: zero, standard atmosphere, and 1333 hPa. */
  lemma MmHgExamples()
    ensures MmHg(0) == 0
    ensures MmHg(1013) == 760
    ensures MmHg(1333) == 1000
  {
  }
}
