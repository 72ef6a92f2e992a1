/** The fixed tables and the pure integer rules of the game: the six sites,
    the three products, the economics constants, the calendar and the
    sale formulas of both selling modes. */
module Catalog {

  datatype Option<+T> = None | Some(value: T)

  /** The six sites of the location picker ("Plaża" is spelled Plaza). */
  datatype Location = Centrum | Kampus | Park | Stadion | Dworzec | Plaza

  /** The three frozen treats ("Mrożony jogurt", "Shake owocowy"). */
  datatype Product = Lody | MrozonyJogurt | ShakeOwocowy

  /** A (location, product) pairing; it is also the key of the demand cache. */
  datatype Pitch = Pitch(loc: Location, prod: Product)

  const StartDay: int := 1
  const StartCash: int := 10000
  const MaxDays: int := 35

  const UnitPrice: int := 12
  const FoodTruckCap: nat := 150
  const TrolleyCap: nat := 50
  const ReportCost: int := 500

  /** Length of a food-truck commitment, of the trolley days left after the
      starting sale, and of the block of days a report covers. */
  const FoodTruckSpan: nat := 7
  const TrolleySpan: nat := 6
  const ReportSpan: nat := 7

  /** Day of the week, 1..7. Python's `%` by a positive divisor is never
      negative, exactly like Dafny's, so this agrees with the source for
      every integer day. */
  function Weekday(day: int): (d: int)
    ensures 1 <= d <= 7
    ensures (day - d) % 7 == 0
  {
    (day - 1) % 7 + 1
  }

  /** Week number; together with Weekday it decomposes the day counter. */
  function Week(day: int): (w: int)
    ensures day >= 1 ==> w >= 1
    ensures (w - 1) * 7 + Weekday(day) == day
  {
    (day - 1) / 7 + 1
  }

  /** `max(0, raw)`: the clamp applied to the perturbed daily demand. */
  function ClampDemand(raw: int): (d: nat)
    ensures d >= raw
    ensures d == raw || d == 0
  {
    if raw < 0 then 0 else raw
  }

  /** `min(demand, 150)`: what a food truck sells on one day. */
  function FoodTruckSold(demand: nat): (sold: nat)
    ensures sold <= FoodTruckCap && sold <= demand
    ensures sold == demand || sold == FoodTruckCap
  {
    if demand < FoodTruckCap then demand else FoodTruckCap
  }

  /** `min(int(demand * 0.3), 50)`: what a trolley sells on one day, the
      30 per cent cut written as `3 * demand / 10` on a non-negative demand. */
  function TrolleySold(demand: nat): (sold: nat)
    ensures sold <= TrolleyCap
    ensures 10 * sold <= 3 * demand
    ensures sold == TrolleyCap || 3 * demand < 10 * (sold + 1)
  {
    var cut := 3 * demand / 10;
    if cut < TrolleyCap then cut else TrolleyCap
  }
}
