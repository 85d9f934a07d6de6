/** Price rules and normalisation (cn_futures_bridge/terminal/pricing.py, terminal/market.py:19-28).

    Fractions are real numbers.  Whether a price survives the terminal's float transport is the parameter `survives`.
 */
module Pricing {
  import opened Base
  import opened Decimals

  /** A float as the terminal reports it: unusable, or the decimal its repr spells. */
  datatype Float = NotANumber | Infinite | Finite(negative: bool, text: Decimal)

  datatype InstrumentInfo = InstrumentInfo(found: bool, dataReady: bool, status: int, tick: Float, lower: Float,
                                           upper: Float, minVolume: int, maxVolume: int)

  datatype Side = Buy | Sell

  datatype TimeInForce = GoodForDay | ImmediateOrCancel

  datatype LimitOrder = LimitOrder(instrument: string, side: Side, offset: nat, volume: int, price: Decimal,
                                   tif: TimeInForce)

  datatype Reason = FloatNoise | UpperLimit | LowerLimit | TickFloor | TickCeil

  datatype PriceError = RulesUnavailable | NoLegalPrice | VolumeUnavailable | VolumeOutside | BuyBelowLower
                      | BuyTooHigh | SellAboveUpper | SellTooLow | NothingAligned | OutsideLimits | OffGrid
                      | NotTransportable | NotTrading | BoundaryOffGrid

  /** The HTTP status each error is reported with. */
  function Status(e: PriceError): nat {
    match e
    case RulesUnavailable => 503
    case NoLegalPrice => 503
    case VolumeUnavailable => 503
    case BoundaryOffGrid => 503
    case NotTrading => 409
    case _ => 422
  }

  datatype Rules = Rules(tick: Decimal, lower: Decimal, upper: Decimal)

  predicate Positive(f: Float) {
    f.Finite? && !f.negative && Value(f.text) > 0.0
  }

  function CeilOf(x: real): int {
    -((-x).Floor)
  }

  function PriceRules(info: InstrumentInfo): Result<Rules, PriceError> {
    if !info.found || !info.dataReady || !Positive(info.tick) || !Positive(info.lower) || !Positive(info.upper)
       || Value(info.lower.text) > Value(info.upper.text)
    then Err(RulesUnavailable)
    else if CeilOf(Value(info.lower.text) / Value(info.tick.text))
            > (Value(info.upper.text) / Value(info.tick.text)).Floor
    then Err(NoLegalPrice)
    else Ok(Rules(info.tick.text, info.lower.text, info.upper.text))
  }

  function VolumeProblem(request: LimitOrder, info: InstrumentInfo): Option<PriceError> {
    if info.minVolume < 1 || info.maxVolume < info.minVolume then Some(VolumeUnavailable)
    else if !(info.minVolume <= request.volume <= info.maxVolume) then Some(VolumeOutside)
    else None
  }

  predicate OnGrid(price: real, tick: real)
    requires tick > 0.0
  {
    (price / tick).Floor as real == price / tick
  }

  /** The price rules as fractions. */
  datatype Grid = Grid(tick: real, low: real, high: real, lowest: real, highest: real)

  /** The limits of the day, and how far outside them a price is still tolerated. */
  function GridOf(rules: Rules, ratio: real): Grid {
    var low, high := Value(rules.lower), Value(rules.upper);
    Grid(Value(rules.tick), low, high, low * (1.0 - ratio), high * (1.0 + ratio))
  }

  ghost predicate Usable(g: Grid) {
    0.0 < g.tick && 0.0 < g.low <= g.high && g.lowest <= g.low && g.high <= g.highest
  }

  function Checked(price: real, g: Grid, survives: real -> bool): Option<PriceError>
    requires g.tick > 0.0
  {
    if !(g.low <= price <= g.high) then Some(OutsideLimits)
    else if !OnGrid(price, g.tick) then Some(OffGrid)
    else if !survives(price) then Some(NotTransportable)
    else None
  }

  /** The strict check at the trading entrance; nothing is adjusted here. */
  function ValidateLimit(request: LimitOrder, info: InstrumentInfo, survives: real -> bool): Option<PriceError> {
    match PriceRules(info)
    case Err(e) => Some(e)
    case Ok(rules) =>
      var problem := VolumeProblem(request, info);
      if problem.Some? then problem else Checked(Value(request.price), GridOf(rules, 0.0), survives)
  }

  // ----- What normalisation means -----

  const NOISE := 1000000000.0

  function Abs(x: real): real {
    if x < 0.0 then -x else x
  }

  /** The multiple of the tick nearest to the price, halves up. */
  function Nearest(price: real, tick: real): real
    requires tick > 0.0
  {
    var scaled := price / tick;
    Ticks(scaled.Floor + if scaled - scaled.Floor as real >= 0.5 then 1 else 0, tick)
  }

  function Snapped(price: real, tick: real): real
    requires tick > 0.0
  {
    if Abs(price - Nearest(price, tick)) <= tick / NOISE then Nearest(price, tick) else price
  }

  /** The price after the one-sided cut: a buy never above the upper limit, a sell never below the lower. */
  function Cut(side: Side, snapped: real, g: Grid): real {
    if side == Buy then (if snapped > g.high then g.high else snapped)
    else (if snapped < g.low then g.low else snapped)
  }

  function UnitsOf(side: Side, cut: real, tick: real): int
    requires tick > 0.0
  {
    if side == Buy then (cut / tick).Floor else CeilOf(cut / tick)
  }

  /** How far beyond the tolerated band the snapped price lies. */
  function Excess(side: Side, snapped: real, g: Grid): real {
    if side == Buy then snapped - g.highest else g.lowest - snapped
  }

  function ReasonsFor(side: Side, price: real, g: Grid): seq<Reason>
    requires g.tick > 0.0
  {
    var snapped := Snapped(price, g.tick);
    var cut := Cut(side, snapped, g);
    (if snapped != price || (cut != snapped && Excess(side, snapped, g) > 0.0) then [FloatNoise] else [])
    + (if cut != snapped then [if side == Buy then UpperLimit else LowerLimit] else [])
    + (if Ticks(UnitsOf(side, cut, g.tick), g.tick) != cut then [if side == Buy then TickFloor else TickCeil] else [])
  }

  function Problem(side: Side, snapped: real, g: Grid): Option<PriceError>
    requires g.tick > 0.0
  {
    var cut := Cut(side, snapped, g);
    var units := UnitsOf(side, cut, g.tick);
    if side == Buy && snapped < g.low then Some(BuyBelowLower)
    else if side == Sell && snapped > g.high then Some(SellAboveUpper)
    else if cut != snapped && Excess(side, snapped, g) > g.tick / NOISE
    then Some(if side == Buy then BuyTooHigh else SellTooLow)
    else if units <= 0 || !(g.low <= Ticks(units, g.tick) <= g.high) then Some(NothingAligned)
    else None
  }

  /** The number of ticks an order of this price is placed at, and why it differs from what was asked. */
  function Aligned(side: Side, price: real, g: Grid): (r: Result<(nat, seq<Reason>), PriceError>)
    requires g.tick > 0.0
    ensures r.Ok? ==> g.low <= Ticks(r.value.0, g.tick) <= g.high
  {
    var snapped := Snapped(price, g.tick);
    var problem := Problem(side, snapped, g);
    if problem.Some? then Err(problem.value)
    else
      var units := UnitsOf(side, Cut(side, snapped, g), g.tick);
      Ok((units, ReasonsFor(side, price, g)))
  }

  function Normalized(request: LimitOrder, info: InstrumentInfo, ratio: real, survives: real -> bool)
    : Result<(LimitOrder, seq<Reason>), PriceError>
  {
    match PriceRules(info)
    case Err(e) => Err(e)
    case Ok(rules) =>
      if VolumeProblem(request, info).Some? then Err(VolumeProblem(request, info).value)
      else
        match Aligned(request.side, Value(request.price), GridOf(rules, ratio))
        case Err(e) => Err(e)
        case Ok((units, reasons)) =>
          if !survives(Ticks(units, Value(rules.tick))) then Err(NotTransportable)
          else Ok((request.(price := TickMultiple(units, rules.tick)), reasons))
  }

  // ----- Arithmetic of ticks -----

  lemma Scales(a: real, b: real, tick: real)
    requires tick > 0.0
    ensures a <= b <==> a * tick <= b * tick
    ensures a < b <==> a * tick < b * tick
  {
    if a < b { assert (b - a) * tick > 0.0; }
    if a > b { assert (a - b) * tick > 0.0; }
  }

  lemma {:induction false} TicksScale(a: int, b: int, tick: real)
    requires tick > 0.0 && a <= b
    ensures Ticks(a, tick) <= Ticks(b, tick) && (a < b ==> Ticks(a, tick) + tick <= Ticks(b, tick))
    decreases b - a
  {
    if a < b {
      TicksScale(a + 1, b, tick);
      assert Ticks(a + 1, tick) == Ticks(a, tick) + tick;
    }
  }

  lemma TicksCompare(a: int, b: int, tick: real)
    requires tick > 0.0
    ensures a <= b <==> Ticks(a, tick) <= Ticks(b, tick)
  {
    if a <= b { TicksScale(a, b, tick); } else { TicksScale(b, a, tick); }
  }

  lemma SignOfTicks(units: int, tick: real)
    requires tick > 0.0
    ensures Ticks(units, tick) <= 0.0 <==> units <= 0
  {
    TicksCompare(units, 0, tick);
  }

  // Quotients by name: below this point no proof multiplies two variables.

  function Times(x: real, tick: real): real { x * tick }

  lemma QuotientTimes(price: real, tick: real)
    requires tick > 0.0
    ensures Times(price / tick, tick) == price
  {
  }

  lemma TimesCompares(x: real, y: real, tick: real)
    requires tick > 0.0
    ensures x <= y <==> Times(x, tick) <= Times(y, tick)
  {
    Scales(x, y, tick);
  }

  lemma TicksAreTimes(units: int, tick: real)
    ensures Ticks(units, tick) == Times(units as real, tick)
  {
    TicksIsProduct(units, tick);
  }

  lemma FloorCompares(x: real, units: int)
    ensures units <= x.Floor <==> units as real <= x
    ensures CeilOf(x) <= units <==> x <= units as real
  {
  }

  lemma RoundedCompares(x: real, price: real, tick: real, units: int)
    requires tick > 0.0 && Times(x, tick) == price
    ensures units <= x.Floor <==> Ticks(units, tick) <= price
    ensures CeilOf(x) <= units <==> price <= Ticks(units, tick)
    ensures x == units as real <==> price == Ticks(units, tick)
  {
    hide Times, CeilOf, Ticks;
    FloorCompares(x, units);
    TimesCompares(units as real, x, tick);
    TimesCompares(x, units as real, tick);
    TicksAreTimes(units, tick);
  }

  lemma FloorOfQuotient(price: real, tick: real, units: int)
    requires tick > 0.0
    ensures units <= (price / tick).Floor <==> Ticks(units, tick) <= price
  {
    hide Times, CeilOf, Ticks;
    QuotientTimes(price, tick);
    RoundedCompares(price / tick, price, tick, units);
  }

  lemma CeilOfQuotient(price: real, tick: real, units: int)
    requires tick > 0.0
    ensures CeilOf(price / tick) <= units <==> price <= Ticks(units, tick)
  {
    hide Times, CeilOf, Ticks;
    QuotientTimes(price, tick);
    RoundedCompares(price / tick, price, tick, units);
  }

  lemma GridPoint(units: int, tick: real)
    requires tick > 0.0
    ensures Ticks(units, tick) / tick == units as real && OnGrid(Ticks(units, tick), tick)
  {
    hide Times, CeilOf, Ticks;
    var price := Ticks(units, tick);
    QuotientTimes(price, tick);
    RoundedCompares(price / tick, price, tick, units);
  }

  // ----- The code, step by step -----

  lemma AlignedIsChecked(units: int, price: real, g: Grid, survives: real -> bool)
    requires g.tick > 0.0 && price == Ticks(units, g.tick) && g.low <= price <= g.high
    ensures Checked(price, g, survives) == if survives(price) then None else Some(NotTransportable)
  {
    GridPoint(units, g.tick);
  }

  method SnapPrice(requested: real, tick: real) returns (price: real)
    requires tick > 0.0
    ensures price == Snapped(requested, tick)
  {
    price := requested;
    var scaled := price / tick;
    var nearest := Ticks(scaled.Floor + if scaled - scaled.Floor as real >= 0.5 then 1 else 0, tick);
    if price != nearest && Abs(price - nearest) <= tick / NOISE {
      price := nearest;
    }
  }

  method AlignPrice(side: Side, requested: real, g: Grid) returns (result: Result<(nat, seq<Reason>), PriceError>)
    requires g.tick > 0.0
    ensures result == Aligned(side, requested, g)
  {
    hide Ticks, Snapped, Nearest;
    var epsilon := g.tick / NOISE;
    var price := SnapPrice(requested, g.tick);
    ghost var snapped := price;
    var reasons := if price != requested then [FloatNoise] else [];
    var units: int;
    var direction: Reason;
    if side == Buy {
      if price < g.low { return Err(BuyBelowLower); }
      if price > g.high {
        var excess := price - g.highest;
        if excess > epsilon { return Err(BuyTooHigh); }
        if excess > 0.0 && FloatNoise !in reasons { reasons := reasons + [FloatNoise]; }
        price := g.high;
        reasons := reasons + [UpperLimit];
      }
      units := (price / g.tick).Floor;
      direction := TickFloor;
    } else {
      if price > g.high { return Err(SellAboveUpper); }
      if price < g.low {
        var excess := g.lowest - price;
        if excess > epsilon { return Err(SellTooLow); }
        if excess > 0.0 && FloatNoise !in reasons { reasons := reasons + [FloatNoise]; }
        price := g.low;
        reasons := reasons + [LowerLimit];
      }
      units := CeilOf(price / g.tick);
      direction := TickCeil;
    }
    assert price == Cut(side, snapped, g) && units == UnitsOf(side, price, g.tick);
    assert reasons == (if snapped != requested || (price != snapped && Excess(side, snapped, g) > 0.0)
                       then [FloatNoise] else [])
                      + (if price != snapped then [if side == Buy then UpperLimit else LowerLimit] else []);
    var actual := Ticks(units, g.tick);
    SignOfTicks(units, g.tick);
    if actual != price { reasons := reasons + [direction]; }
    if actual <= 0.0 || !(g.low <= actual <= g.high) { return Err(NothingAligned); }
    assert reasons == ReasonsFor(side, requested, g);
    return Ok((units, reasons));
  }

  method NormalizeLimit(request: LimitOrder, info: InstrumentInfo, ratio: real, survives: real -> bool)
    returns (result: Result<(LimitOrder, seq<Reason>), PriceError>)
    ensures result == Normalized(request, info, ratio, survives)
  {
    var found := PriceRules(info);
    if found.Err? { return Err(found.error); }
    var rules := found.value;
    var volume := VolumeProblem(request, info);
    if volume.Some? { return Err(volume.value); }
    var aligned := AlignPrice(request.side, Value(request.price), GridOf(rules, ratio));
    if aligned.Err? { return Err(aligned.error); }
    var (units, reasons) := aligned.value;
    var exact := BuildTickMultiple(units, rules.tick);
    var effective := request.(price := exact);
    AlignedIsChecked(units, Value(exact), GridOf(rules, ratio), survives);
    var problem := ValidateLimit(effective, info, survives);
    if problem.Some? { return Err(problem.value); }
    return Ok((effective, reasons));
  }

  /** A market order is a limit order at the boundary of the day. */
  function EmulatedMarket(request: LimitOrder, info: InstrumentInfo, survives: real -> bool)
    : Result<LimitOrder, PriceError>
  {
    if info.status != 3 then Err(NotTrading)
    else
      match PriceRules(info)
      case Err(e) => Err(e)
      case Ok(rules) =>
        var price := if request.side == Buy then rules.upper else rules.lower;
        if !OnGrid(Value(price), Value(rules.tick)) then Err(BoundaryOffGrid)
        else
          var limit := request.(price := price, tif := ImmediateOrCancel);
          var problem := ValidateLimit(limit, info, survives);
          if problem.Some? then Err(problem.value) else Ok(limit)
  }
}
