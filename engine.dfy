/** The turn-based state machine of one game session: the decision
    branches that run at most once per pass of the page, and the final
    block that advances the day or ends the game. */
module Engine {
  import opened Catalog
  import opened History

  /** The active commitment; NoMode is the source's `None`. */
  datatype Mode = NoMode | FoodTruckMode | TrolleyMode

  /** The three buttons of the main menu. */
  datatype Choice = ReportChoice | FoodTruckChoice | TrolleyChoice

  /** What the player submits during one pass: nothing, the main-menu form,
      or the trolley's daily form. A form that is not on the page in that
      pass cannot be submitted, so such an input is ignored. */
  datatype Input = NoSubmit | MenuSubmit(choice: Choice, pitch: Pitch) | TrolleySubmit(pitch: Pitch)

  class GameState {
    /** Base demand of a pitch for this game, fixed once the weather is drawn
        (the float formula base * weather factor * product weight, truncated). */
    const baseOf: Pitch -> nat
    /** The seeded daily draw: `int(base + variation)` for a base, a pitch and a day. */
    const draw: (nat, Pitch, int) -> int
    const maxDays: int := MaxDays

    var day: int
    var cash: int
    var history: seq<Entry>
    var dayComplete: bool
    var mode: Mode
    var foodtruckDaysLeft: nat
    var trolleyDaysLeft: nat
    var foodtruckPitch: Option<Pitch>
    var pairDemand: map<Pitch, nat>
    var reportBought: bool

    /** Demand of a pitch on a day: the clamped draw around the pitch's base. */
    function Demand(pitch: Pitch, d: int): nat
    {
      ClampDemand(draw(baseOf(pitch), pitch, d))
    }

    /** The cache after looking up a pitch: an entry is added once, never replaced. */
    function Cached(m: map<Pitch, nat>, pitch: Pitch): map<Pitch, nat>
    {
      if pitch in m then m else m[pitch := baseOf(pitch)]
    }

    ghost predicate Valid()
      reads this
    {
      && StartDay <= day <= maxDays + ReportSpan
      && (!dayComplete ==> day <= maxDays)
      && foodtruckDaysLeft <= FoodTruckSpan && trolleyDaysLeft <= TrolleySpan
      && (foodtruckDaysLeft == 0 || trolleyDaysLeft == 0)
      && (foodtruckDaysLeft > 0 ==> mode == FoodTruckMode && foodtruckPitch.Some?)
      && (trolleyDaysLeft > 0 ==> mode == TrolleyMode)
      && (!dayComplete && foodtruckDaysLeft == 0 && trolleyDaysLeft == 0 ==> mode == NoMode)
      && (forall p :: p in pairDemand ==> pairDemand[p] == baseOf(p))
      && (forall i :: 0 <= i < |history| ==> WellFormed(history[i]))
      && Balanced(cash, history)
    }

    /** Between two passes a day stays complete only once the game is over. */
    ghost predicate Settled()
      reads this
    {
      dayComplete ==> day >= maxDays
    }

    /** The end-of-game state: no decision branch runs again. */
    predicate GameOver()
      reads this
    {
      dayComplete && day >= maxDays
    }

    /** The only state in which the main menu is offered. */
    predicate AwaitingChoice()
      reads this
    {
      !dayComplete && foodtruckDaysLeft == 0 && trolleyDaysLeft == 0 && mode == NoMode
    }

    /** A new game. */
    constructor (baseOf: Pitch -> nat, draw: (nat, Pitch, int) -> int)
      ensures this.baseOf == baseOf && this.draw == draw
      ensures day == StartDay && cash == StartCash && history == [] && maxDays == MaxDays
      ensures !dayComplete && mode == NoMode
      ensures foodtruckDaysLeft == 0 && trolleyDaysLeft == 0 && foodtruckPitch == None
      ensures pairDemand == map[] && !reportBought
      ensures Valid() && Settled() && AwaitingChoice()
    {
      this.baseOf := baseOf;
      this.draw := draw;
      day := StartDay;
      cash := StartCash;
      history := [];
      dayComplete := false;
      mode := NoMode;
      foodtruckDaysLeft := 0;
      trolleyDaysLeft := 0;
      foodtruckPitch := None;
      pairDemand := map[];
      reportBought := false;
    }

    /** Today's demand for a pitch; the pitch's base is cached on first use.
        The value depends only on the pitch and the day, never on what the
        cache held before. */
    method PairDemand(pitch: Pitch) returns (d: nat)
      requires Valid()
      modifies this`pairDemand
      ensures Valid()
      ensures d == Demand(pitch, day)
      ensures pairDemand == Cached(old(pairDemand), pitch)
      ensures pitch in pairDemand && pairDemand[pitch] == baseOf(pitch)
      ensures forall p :: p in old(pairDemand) ==> p in pairDemand && pairDemand[p] == old(pairDemand)[p]
    {
      if pitch !in pairDemand {
        pairDemand := pairDemand[pitch := baseOf(pitch)];
      }
      var base := pairDemand[pitch];
      d := ClampDemand(draw(base, pitch, day));
    }

    /** A food-truck day: sells at the stored pitch, books the profit and
        uses up one day of the commitment. */
    method FoodTruckDay() returns (result: Option<Entry>)
      requires Valid() && !dayComplete && foodtruckDaysLeft > 0
      modifies this`cash, this`history, this`foodtruckDaysLeft, this`dayComplete, this`pairDemand
      ensures Valid()
      ensures var pitch := foodtruckPitch.value;
              var sold := FoodTruckSold(Demand(pitch, day));
              && cash == old(cash) + UnitPrice * sold
              && result == Some(SaleEntry(day, FoodTruck, pitch, sold, cash))
              && history == old(history) + [result.value]
              && pairDemand == Cached(old(pairDemand), pitch)
      ensures foodtruckDaysLeft == old(foodtruckDaysLeft) - 1 && dayComplete
    {
      var pitch := foodtruckPitch.value;
      var demand := PairDemand(pitch);
      var sold := FoodTruckSold(demand);
      var profit := UnitPrice * sold;
      SaleKeepsBalance(cash, history, SaleEntry(day, FoodTruck, pitch, sold, cash + profit));
      cash := cash + profit;
      var entry := SaleEntry(day, FoodTruck, pitch, sold, cash);
      history := history + [entry];
      foodtruckDaysLeft := foodtruckDaysLeft - 1;
      dayComplete := true;
      result := Some(entry);
    }

    /** One trolley sale at a pitch: the cut of today's demand, capped, at the unit price. */
    method SellFromTrolley(pitch: Pitch) returns (entry: Entry)
      requires Valid()
      modifies this`cash, this`history, this`pairDemand
      ensures Valid()
      ensures var sold := TrolleySold(Demand(pitch, day));
              && cash == old(cash) + UnitPrice * sold
              && entry == SaleEntry(day, Trolley, pitch, sold, cash)
      ensures history == old(history) + [entry]
      ensures pairDemand == Cached(old(pairDemand), pitch)
    {
      var demand := PairDemand(pitch);
      var sold := TrolleySold(demand);
      var profit := UnitPrice * sold;
      SaleKeepsBalance(cash, history, SaleEntry(day, Trolley, pitch, sold, cash + profit));
      cash := cash + profit;
      entry := SaleEntry(day, Trolley, pitch, sold, cash);
      history := history + [entry];
    }

    /** A trolley day: the player's fresh pick for today is sold from, and one
        day of the commitment is used up. */
    method TrolleyDay(pitch: Pitch) returns (result: Option<Entry>)
      requires Valid() && !dayComplete && foodtruckDaysLeft == 0 && trolleyDaysLeft > 0
      modifies this`cash, this`history, this`trolleyDaysLeft, this`dayComplete, this`pairDemand
      ensures Valid()
      ensures var sold := TrolleySold(Demand(pitch, day));
              && cash == old(cash) + UnitPrice * sold
              && result == Some(SaleEntry(day, Trolley, pitch, sold, cash))
              && history == old(history) + [result.value]
      ensures pairDemand == Cached(old(pairDemand), pitch)
      ensures trolleyDaysLeft == old(trolleyDaysLeft) - 1 && dayComplete
    {
      var entry := SellFromTrolley(pitch);
      trolleyDaysLeft := trolleyDaysLeft - 1;
      dayComplete := true;
      result := Some(entry);
    }

    /** Buying the market report: the cost is deducted with no funds check,
        seven report rows cover days day .. day + 6, and the day jumps by seven. */
    method BuyReport() returns (result: Option<Entry>)
      requires Valid() && AwaitingChoice()
      modifies this`cash, this`history, this`day, this`dayComplete, this`reportBought
      ensures Valid()
      ensures cash == old(cash) - ReportCost
      ensures history == old(history) + ReportBlock(old(day), cash)
      ensures day == old(day) + ReportSpan && dayComplete && reportBought
      ensures result == None
    {
      cash := cash - ReportCost;
      reportBought := true;
      ghost var block := ReportBlock(day, cash);
      for i := 0 to ReportSpan
        modifies this`history
        invariant history == old(history) + block[..i]
        invariant forall j :: 0 <= j < |history| ==> WellFormed(history[j])
      {
        history := history + [ReportRow(day + i, cash)];
      }
      assert block[..ReportSpan] == block;
      ReportKeepsBalance(old(cash), old(history), day);
      day := day + ReportSpan;
      dayComplete := true;
      result := None;
    }

    /** Committing a food truck to one pitch for seven days; nothing is sold
        until the next pass. */
    method StartFoodTruck(pitch: Pitch)
      requires Valid() && AwaitingChoice()
      modifies this`foodtruckDaysLeft, this`foodtruckPitch, this`mode
      ensures Valid()
      ensures foodtruckDaysLeft == FoodTruckSpan && foodtruckPitch == Some(pitch) && mode == FoodTruckMode
    {
      foodtruckDaysLeft := FoodTruckSpan;
      foodtruckPitch := Some(pitch);
      mode := FoodTruckMode;
    }

    /** Committing a trolley: six more daily picks follow, and today's pick is
        sold from at once. */
    method StartTrolley(pitch: Pitch) returns (result: Option<Entry>)
      requires Valid() && AwaitingChoice()
      modifies this`trolleyDaysLeft, this`mode, this`cash, this`history, this`dayComplete, this`pairDemand
      ensures Valid()
      ensures trolleyDaysLeft == TrolleySpan && mode == TrolleyMode && dayComplete
      ensures var sold := TrolleySold(Demand(pitch, day));
              && cash == old(cash) + UnitPrice * sold
              && result == Some(SaleEntry(day, Trolley, pitch, sold, cash))
              && history == old(history) + [result.value]
      ensures pairDemand == Cached(old(pairDemand), pitch)
    {
      trolleyDaysLeft := TrolleySpan;
      mode := TrolleyMode;
      var entry := SellFromTrolley(pitch);
      dayComplete := true;
      result := Some(entry);
    }

    /** The final block of a pass: before the last day, a completed day moves
        on by one (unless the pass's result is a report row, which no branch
        produces), the flag is cleared and the mode is dropped once both
        commitments are used up; on or after the last day the game ends and
        the state is left as it is. */
    method FinishDay(result: Option<Entry>)
      requires Valid()
      modifies this`day, this`dayComplete, this`mode
      ensures Valid() && Settled()
      ensures old(dayComplete) && old(day) < maxDays ==>
        && day == (if result.Some? && result.value.kind == Report then old(day) else old(day) + 1)
        && !dayComplete
        && mode == (if foodtruckDaysLeft == 0 && trolleyDaysLeft == 0 then NoMode else old(mode))
      ensures !(old(dayComplete) && old(day) < maxDays) ==>
        day == old(day) && dayComplete == old(dayComplete) && mode == old(mode)
    {
      if dayComplete {
        if day < maxDays {
          if !(result.Some? && result.value.kind == Report) {
            day := day + 1;
          }
          dayComplete := false;
          if foodtruckDaysLeft == 0 && trolleyDaysLeft == 0 {
            mode := NoMode;
          }
        }
      }
    }

    /** A pass that sells: a food-truck day, a trolley pick, or a trolley start. */
    ghost predicate SalePass(input: Input)
      reads this
    {
      && !dayComplete
      && (|| foodtruckDaysLeft > 0
          || (trolleyDaysLeft > 0 && input.TrolleySubmit?)
          || (AwaitingChoice() && input.MenuSubmit? && input.choice == TrolleyChoice))
    }

    /** A pass in which the form on the page is not submitted. */
    ghost predicate IdlePass(input: Input)
      reads this
    {
      && !dayComplete
      && foodtruckDaysLeft == 0
      && ((trolleyDaysLeft > 0 && !input.TrolleySubmit?) || (AwaitingChoice() && !input.MenuSubmit?))
    }

    /** One pass of the page: at most one decision branch, chosen with the
        food truck first, then the trolley, then the main menu, followed by
        the final block. Starting a food truck reruns the page before the
        final block is reached. */
    method Step(input: Input)
      requires Valid() && Settled()
      modifies this
      ensures Valid() && Settled()
      ensures old(GameOver()) ==> unchanged(this)
      ensures old(IdlePass(input)) ==> unchanged(this)
      ensures old(history) <= history && old(day) <= day
      // every selling pass appends one row, then the day moves on or the game ends
      ensures old(SalePass(input)) ==>
        && |history| == |old(history)| + 1
        && history[|old(history)|].cashAfter == cash
        && (old(day) < maxDays ==> day == old(day) + 1 && !dayComplete)
        && (old(day) >= maxDays ==> day == old(day) && GameOver())
      ensures !old(dayComplete) && old(foodtruckDaysLeft) > 0 ==>
        var pitch := old(foodtruckPitch).value;
        var sold := FoodTruckSold(Demand(pitch, old(day)));
        && cash == old(cash) + UnitPrice * sold
        && history == old(history) + [SaleEntry(old(day), FoodTruck, pitch, sold, cash)]
        && foodtruckDaysLeft == old(foodtruckDaysLeft) - 1
        && trolleyDaysLeft == 0
      ensures !old(dayComplete) && old(foodtruckDaysLeft) == 0 && old(trolleyDaysLeft) > 0 && input.TrolleySubmit? ==>
        var sold := TrolleySold(Demand(input.pitch, old(day)));
        && cash == old(cash) + UnitPrice * sold
        && history == old(history) + [SaleEntry(old(day), Trolley, input.pitch, sold, cash)]
        && trolleyDaysLeft == old(trolleyDaysLeft) - 1
      ensures old(AwaitingChoice()) && input.MenuSubmit? && input.choice == TrolleyChoice ==>
        var sold := TrolleySold(Demand(input.pitch, old(day)));
        && cash == old(cash) + UnitPrice * sold
        && history == old(history) + [SaleEntry(old(day), Trolley, input.pitch, sold, cash)]
        && trolleyDaysLeft == TrolleySpan && mode == TrolleyMode
      ensures foodtruckDaysLeft > old(foodtruckDaysLeft) || trolleyDaysLeft > old(trolleyDaysLeft) ==>
        old(AwaitingChoice())
      ensures old(AwaitingChoice()) && input.MenuSubmit? && input.choice == FoodTruckChoice ==>
        && foodtruckDaysLeft == FoodTruckSpan && foodtruckPitch == Some(input.pitch) && mode == FoodTruckMode
        && day == old(day) && cash == old(cash) && history == old(history) && !dayComplete
      ensures old(AwaitingChoice()) && input.MenuSubmit? && input.choice == ReportChoice ==>
        && cash == old(cash) - ReportCost
        && history == old(history) + ReportBlock(old(day), cash)
        && reportBought
        && (old(day) + ReportSpan < maxDays ==> day == old(day) + ReportSpan + 1 && !dayComplete && mode == NoMode)
        && (old(day) + ReportSpan >= maxDays ==> day == old(day) + ReportSpan && GameOver())
        && foodtruckDaysLeft == 0 && trolleyDaysLeft == 0 && mode == NoMode
      // only a food-truck start stores a pitch, only a report sets the report flag,
      // and a cached base is never replaced
      ensures !(old(AwaitingChoice()) && input.MenuSubmit? && input.choice == FoodTruckChoice) ==>
        foodtruckPitch == old(foodtruckPitch)
      ensures !(old(AwaitingChoice()) && input.MenuSubmit? && input.choice == ReportChoice) ==>
        reportBought == old(reportBought)
      ensures forall p :: p in old(pairDemand) ==> p in pairDemand && pairDemand[p] == old(pairDemand)[p]
    {
      var result: Option<Entry> := None;
      if !dayComplete {
        if foodtruckDaysLeft > 0 {
          result := FoodTruckDay();
        } else if trolleyDaysLeft > 0 {
          if input.TrolleySubmit? {
            result := TrolleyDay(input.pitch);
          }
        } else if mode == NoMode {
          if input.MenuSubmit? {
            match input.choice
            case ReportChoice =>
              result := BuyReport();
            case FoodTruckChoice =>
              StartFoodTruck(input.pitch);
              return;
            case TrolleyChoice =>
              result := StartTrolley(input.pitch);
          }
        }
      }
      FinishDay(result);
    }
  }
}
