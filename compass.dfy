/** Wind-direction bucketing (weather.py, the WINDS table and the lookup
    `WINDS[int((deg % 360) / 45)]`). Headings are integers. */
module Compass {

  /** The compass table in the source's order: N, NE, E, SE, S, SW, W, NW,
      and N a second time as a ninth entry. */
  const Winds: seq<string> := [
    "Северный",
    "Северо-восточный",
    "Восточный",
    "Юго-восточный",
    "Южный",
    "Юго-западный",
    "Западный",
    "Северозападный",
    "Северный"
  ]

  /** The eight labels that can actually be selected. */
  const Points: seq<string> := Winds[..8]

  /** The index `int((deg % 360) / 45)`. Python's `%` with the positive modulus
      360 and Dafny's Euclidean `%` agree, and the quotient is non-negative,
      so truncation towards zero is the floor division below. The index is
      that of the 45-degree band holding the normalised heading, and it never
      reaches 8, the duplicate last entry. */
  function Sector(deg: int): (i: nat)
    ensures i < 8 && i < |Winds| - 1
    ensures 45 * i <= deg % 360 < 45 * i + 45
  {
    (deg % 360) / 45
  }

  /** The label the bot reports for a heading; always one of the eight points. */
  function Direction(deg: int): (point: string)
    ensures point in Points
  {
    Winds[Sector(deg)]
  }

  /** The first eight labels are pairwise different, and the ninth repeats the first. */
  lemma PointsDistinct()
    ensures |Points| == 8 && Winds[8] == Winds[0]
    ensures forall a, b :: 0 <= a < b < 8 ==> Points[a] != Points[b]
  {
  }

  /** Headings that differ by whole turns share their sector. */
  lemma SectorPeriodic(deg: int, k: int)
    ensures Sector(deg + 360 * k) == Sector(deg)
  {
    var q := deg / 360;
    assert deg + 360 * k == 360 * (q + k) + deg % 360;
    assert (deg + 360 * k) % 360 == deg % 360;
  }

  /** Direction is periodic with period 360 degrees, also for negative headings. */
  lemma DirectionPeriodic(deg: int, k: int)
    ensures Direction(deg + 360 * k) == Direction(deg)
  {
    SectorPeriodic(deg, k);
  }

  /** Each 45-degree band maps to exactly one label, in table order: the
      heading gets the j-th label if and only if its normalised value lies in
      the j-th band. */
  lemma DirectionBand(deg: int, j: nat)
    requires j < 8
    ensures Direction(deg) == Points[j] <==> 45 * j <= deg % 360 < 45 * j + 45
  {
  }

  /** Three bands spelled out: north, east and north-west. */
  lemma NamedBands(deg: int)
    ensures 0 <= deg % 360 < 45 ==> Direction(deg) == "Северный"
    ensures 90 <= deg % 360 < 135 ==> Direction(deg) == "Восточный"
    ensures 315 <= deg % 360 < 360 ==> Direction(deg) == "Северозападный"
  {
  }

  /** Every one of the eight points is reported for some heading. */
  lemma EveryPointReached(j: nat)
    requires j < 8
    ensures Direction(45 * j) == Points[j]
  {
  }
}
