/** What price normalisation promises: exact conditions for acceptance, the price chosen, and how it behaves as the
    requested price varies (cn_futures_bridge/terminal/pricing.py:67-119).
 */
module PricingTheorems {
  import opened Base
  import opened Decimals
  import opened Pricing

  // ----- Snapping to the grid -----

  function Noise(tick: real): real { tick / NOISE }

  lemma TimesAreLinear(x: real, y: real, tick: real)
    ensures Times(x + y, tick) == Times(x, tick) + Times(y, tick)
    ensures Times(0.5, tick) == tick / 2.0
  {
  }

  lemma NearTimes(x: real, price: real, tick: real, k: int)
    requires tick > 0.0 && Times(x, tick) == price && Abs(price - Ticks(k, tick)) <= Noise(tick)
    ensures -0.5 < x - k as real < 0.5
  {
    hide Times, Ticks;
    var at := k as real;
    TicksAreTimes(k, tick);
    TimesAreLinear(at, 0.5, tick);
    TimesCompares(at + 0.5, x, tick);
    TimesAreLinear(x, 0.5, tick);
    TimesCompares(x + 0.5, at, tick);
  }

  lemma NearInTicks(price: real, tick: real, k: int)
    requires tick > 0.0 && Abs(price - Ticks(k, tick)) <= Noise(tick)
    ensures -0.5 < price / tick - k as real < 0.5
  {
    hide Times, Ticks;
    QuotientTimes(price, tick);
    NearTimes(price / tick, price, tick, k);
  }

  /** A price within the noise of a multiple snaps to that multiple and no other. */
  lemma SnapsTo(price: real, tick: real, k: int)
    requires tick > 0.0 && Abs(price - Ticks(k, tick)) <= Noise(tick)
    ensures Nearest(price, tick) == Ticks(k, tick) && Snapped(price, tick) == Ticks(k, tick)
  {
    NearInTicks(price, tick, k);
    var scaled := price / tick;
    assert scaled.Floor == k || scaled.Floor == k - 1;
  }

  /** Snapping moves a price by at most the noise, and only onto a multiple. */
  lemma SnapMeans(price: real, tick: real) returns (k: int)
    requires tick > 0.0
    ensures Abs(price - Snapped(price, tick)) <= Noise(tick)
    ensures Snapped(price, tick) == price || Snapped(price, tick) == Ticks(k, tick)
  {
    var scaled := price / tick;
    k := scaled.Floor + if scaled - scaled.Floor as real >= 0.5 then 1 else 0;
  }

  lemma SnapIsMonotone(p: real, q: real, tick: real)
    requires tick > 0.0 && p <= q
    ensures Snapped(p, tick) <= Snapped(q, tick)
  {
    var s, t := Snapped(p, tick), Snapped(q, tick);
    var k := SnapMeans(p, tick);
    var m := SnapMeans(q, tick);
    if s > t {
      if s != p && Abs(q - s) <= Noise(tick) { SnapsTo(q, tick, k); }
      if t != q && Abs(p - t) <= Noise(tick) { SnapsTo(p, tick, m); }
      if s != p && t != q { TicksScale(m, k, tick); TicksCompare(m, k, tick); }
    }
  }

  // ----- The price chosen -----

  /** The bound beyond which a price is refused, and the limit it is cut to. */
  function Tolerance(g: Grid): real { g.tick / NOISE }

  /** A buy is placed at the largest multiple not above the snapped and cut price, a sell at the smallest not below. */
  ghost predicate BestMultiple(side: Side, units: int, cut: real, tick: real) {
    if side == Buy
    then Ticks(units, tick) <= cut && forall k: int :: Ticks(k, tick) <= cut ==> k <= units
    else cut <= Ticks(units, tick) && forall k: int :: cut <= Ticks(k, tick) ==> units <= k
  }

  lemma UnitsAreBest(side: Side, cut: real, tick: real)
    requires tick > 0.0
    ensures BestMultiple(side, UnitsOf(side, cut, tick), cut, tick)
  {
    var units := UnitsOf(side, cut, tick);
    if side == Buy {
      FloorOfQuotient(cut, tick, units);
      forall k: int | Ticks(k, tick) <= cut ensures k <= units { FloorOfQuotient(cut, tick, k); }
    } else {
      CeilOfQuotient(cut, tick, units);
      forall k: int | cut <= Ticks(k, tick) ensures units <= k { CeilOfQuotient(cut, tick, k); }
    }
  }

  /** The price placed is legal, is the best one, and never worse for the customer than asked by more than the noise;
      and a request is only accepted this close to the tolerated band. */
  lemma AlignedMeans(side: Side, price: real, g: Grid)
    requires Usable(g) && Aligned(side, price, g).Ok?
    ensures var units := Aligned(side, price, g).value.0; var actual := Ticks(units, g.tick);
            && g.low <= actual <= g.high
            && BestMultiple(side, units, Cut(side, Snapped(price, g.tick), g), g.tick)
            && (side == Buy ==> actual <= price + Tolerance(g) && price <= g.highest + 2.0 * Tolerance(g))
            && (side == Sell ==> price - Tolerance(g) <= actual && g.lowest - 2.0 * Tolerance(g) <= price)
  {
    var snapped := Snapped(price, g.tick);
    var k := SnapMeans(price, g.tick);
    UnitsAreBest(side, Cut(side, snapped, g), g.tick);
  }

  /** Some multiple of the tick lies between two prices. */
  ghost predicate HasMultiple(from: real, to: real, tick: real) {
    exists k: int :: from <= Ticks(k, tick) <= to
  }

  /** Exactly when a price is accepted: on the right side of the near limit, not beyond the tolerated band on the other
      side, and with a legal multiple between the limit and the price. */
  ghost predicate Acceptable(side: Side, snapped: real, g: Grid) {
    if side == Buy
    then g.low <= snapped <= g.highest + Tolerance(g) && HasMultiple(g.low, Cut(side, snapped, g), g.tick)
    else g.lowest - Tolerance(g) <= snapped <= g.high && HasMultiple(Cut(side, snapped, g), g.high, g.tick)
  }

  lemma AcceptedExactly(side: Side, price: real, g: Grid)
    requires Usable(g)
    ensures Aligned(side, price, g).Ok? <==> Acceptable(side, Snapped(price, g.tick), g)
  {
    var snapped := Snapped(price, g.tick);
    var cut := Cut(side, snapped, g);
    var units := UnitsOf(side, cut, g.tick);
    UnitsAreBest(side, cut, g.tick);
    if Acceptable(side, snapped, g) {
      var k: int :| if side == Buy then g.low <= Ticks(k, g.tick) <= cut else cut <= Ticks(k, g.tick) <= g.high;
      TicksCompare(k, units, g.tick);
      TicksCompare(units, k, g.tick);
      TicksCompare(units, 0, g.tick);
    }
  }

  // ----- Algebra -----

  lemma GridPriceIsKept(side: Side, units: nat, g: Grid)
    requires Usable(g) && g.low <= Ticks(units, g.tick) <= g.high
    ensures Aligned(side, Ticks(units, g.tick), g) == Ok((units, []))
  {
    SnapsTo(Ticks(units, g.tick), g.tick, units);
    GridPoint(units, g.tick);
    TicksCompare(units, 0, g.tick);
    var price := Ticks(units, g.tick);
    assert UnitsOf(side, price, g.tick) == units && Cut(side, price, g) == price;
    var none: seq<Reason> := [];
    assert ReasonsFor(side, price, g) == none + none + none == none;
  }

  /** Normalising a normalised price changes nothing and gives no reasons. */
  lemma NormalisationIsAFixedPoint(side: Side, price: real, g: Grid)
    requires Usable(g) && Aligned(side, price, g).Ok?
    ensures var units := Aligned(side, price, g).value.0; Aligned(side, Ticks(units, g.tick), g) == Ok((units, []))
  {
    GridPriceIsKept(side, Aligned(side, price, g).value.0, g);
  }

  lemma CutIsMonotone(side: Side, s: real, t: real, g: Grid)
    requires s <= t
    ensures Cut(side, s, g) <= Cut(side, t, g)
  {
  }

  /** A higher request is never placed lower. */
  lemma NormalisationIsMonotone(side: Side, p: real, q: real, g: Grid)
    requires Usable(g) && p <= q && Aligned(side, p, g).Ok? && Aligned(side, q, g).Ok?
    ensures Aligned(side, p, g).value.0 <= Aligned(side, q, g).value.0
  {
    SnapIsMonotone(p, q, g.tick);
    var s, t := Cut(side, Snapped(p, g.tick), g), Cut(side, Snapped(q, g.tick), g);
    CutIsMonotone(side, Snapped(p, g.tick), Snapped(q, g.tick), g);
    UnitsAreBest(side, s, g.tick);
    UnitsAreBest(side, t, g.tick);
  }

  /** The accepted prices of one side form an interval. */
  lemma AcceptanceIsAnInterval(side: Side, p: real, x: real, q: real, g: Grid)
    requires Usable(g) && p <= x <= q && Aligned(side, p, g).Ok? && Aligned(side, q, g).Ok?
    ensures Aligned(side, x, g).Ok?
  {
    AcceptedExactly(side, p, g);
    AcceptedExactly(side, x, g);
    AcceptedExactly(side, q, g);
    SnapIsMonotone(p, x, g.tick);
    SnapIsMonotone(x, q, g.tick);
    var end := if side == Buy then p else q;
    var k: int :| if side == Buy then g.low <= Ticks(k, g.tick) <= Cut(side, Snapped(end, g.tick), g)
                  else Cut(side, Snapped(end, g.tick), g) <= Ticks(k, g.tick) <= g.high;
  }

  /** The reasons are empty exactly when the price placed is the price requested. */
  lemma ReasonsExplainEveryChange(side: Side, price: real, g: Grid)
    requires Usable(g) && Aligned(side, price, g).Ok?
    ensures var (units, reasons) := Aligned(side, price, g).value; reasons == [] <==> Ticks(units, g.tick) == price
  {
    var (units, reasons) := Aligned(side, price, g).value;
    if Ticks(units, g.tick) == price { GridPriceIsKept(side, units, g); }
  }

  // ----- Whole orders -----

  lemma ShareIsBetween(x: real, ratio: real)
    requires x > 0.0 && 0.0 <= ratio < 1.0
    ensures 0.0 <= x * ratio && x * (1.0 - ratio) <= x <= x * (1.0 + ratio)
  {
    Scales(0.0, ratio, x);
    assert x * (1.0 - ratio) == x - ratio * x && x * (1.0 + ratio) == x + ratio * x;
  }

  lemma GridIsUsable(info: InstrumentInfo, ratio: real)
    requires PriceRules(info).Ok? && 0.0 <= ratio < 1.0
    ensures Usable(GridOf(PriceRules(info).value, ratio))
  {
    var rules := PriceRules(info).value;
    ShareIsBetween(Value(rules.lower), ratio);
    ShareIsBetween(Value(rules.upper), ratio);
  }

  lemma QuotientsBracketMultiple(low: real, high: real, tick: real)
    requires tick > 0.0
    ensures CeilOf(low / tick) <= (high / tick).Floor <==> HasMultiple(low, high, tick)
  {
    var first := CeilOf(low / tick);
    CeilOfQuotient(low, tick, first);
    FloorOfQuotient(high, tick, first);
    if k: int :| low <= Ticks(k, tick) <= high {
      CeilOfQuotient(low, tick, k);
      FloorOfQuotient(high, tick, k);
    }
  }

  /** The rules are usable exactly when the data is there, positive and ordered, and some multiple of the tick is
      legal. */
  lemma RulesExactly(info: InstrumentInfo)
    ensures PriceRules(info).Ok? <==>
            && info.found && info.dataReady && Positive(info.tick) && Positive(info.lower) && Positive(info.upper)
            && Value(info.lower.text) <= Value(info.upper.text)
            && HasMultiple(Value(info.lower.text), Value(info.upper.text), Value(info.tick.text))
  {
    if Positive(info.tick) && info.lower.Finite? && info.upper.Finite? {
      QuotientsBracketMultiple(Value(info.lower.text), Value(info.upper.text), Value(info.tick.text));
    }
  }

  /** A normalised order passes the strict check, differs from the request in its price only, and is its own normal
      form. */
  lemma NormalizedOrderIsValid(request: LimitOrder, info: InstrumentInfo, ratio: real, survives: real -> bool)
    requires 0.0 <= ratio < 1.0 && Normalized(request, info, ratio, survives).Ok?
    ensures var effective := Normalized(request, info, ratio, survives).value.0;
            && effective == request.(price := effective.price)
            && ValidateLimit(effective, info, survives) == None
            && Normalized(effective, info, ratio, survives) == Ok((effective, []))
  {
    var rules := PriceRules(info).value;
    var g := GridOf(rules, ratio);
    GridIsUsable(info, ratio);
    var units := Aligned(request.side, Value(request.price), g).value.0;
    AlignedIsChecked(units, Ticks(units, g.tick), g, survives);
    GridPriceIsKept(request.side, units, g);
  }

  /** Given usable rules and volume, an order is accepted exactly when its snapped price is acceptable and the price
      it is placed at survives transport. */
  lemma NormalizedExactly(request: LimitOrder, info: InstrumentInfo, ratio: real, survives: real -> bool)
    requires 0.0 <= ratio < 1.0 && PriceRules(info).Ok? && VolumeProblem(request, info).None?
    ensures var g := GridOf(PriceRules(info).value, ratio); var snapped := Snapped(Value(request.price), g.tick);
            Normalized(request, info, ratio, survives).Ok? <==>
              Acceptable(request.side, snapped, g)
              && survives(Ticks(UnitsOf(request.side, Cut(request.side, snapped, g), g.tick), g.tick))
  {
    GridIsUsable(info, ratio);
    AcceptedExactly(request.side, Value(request.price), GridOf(PriceRules(info).value, ratio));
  }

  lemma OnGridMeans(price: real, tick: real) returns (units: int)
    requires tick > 0.0 && OnGrid(price, tick)
    ensures price == Ticks(units, tick)
  {
    hide Times, Ticks;
    units := (price / tick).Floor;
    QuotientTimes(price, tick);
    RoundedCompares(price / tick, price, tick, units);
  }

  /** A market order becomes the most aggressive legal limit order: its own normal form, and at least as far as any
      accepted limit order of its side. */
  lemma MarketIsMostAggressive(request: LimitOrder, other: LimitOrder, info: InstrumentInfo, ratio: real,
                               survives: real -> bool)
    requires 0.0 <= ratio < 1.0 && EmulatedMarket(request, info, survives).Ok?
    ensures var limit := EmulatedMarket(request, info, survives).value;
            var normal := Normalized(limit, info, ratio, survives);
            && limit == request.(price := limit.price, tif := ImmediateOrCancel)
            && normal.Ok? && normal.value.1 == [] && Value(normal.value.0.price) == Value(limit.price)
    ensures other.side == request.side && Normalized(other, info, ratio, survives).Ok? ==>
              var bound := Value(EmulatedMarket(request, info, survives).value.price);
              var placed := Value(Normalized(other, info, ratio, survives).value.0.price);
              if request.side == Buy then placed <= bound else bound <= placed
  {
    var limit := EmulatedMarket(request, info, survives).value;
    var g := GridOf(PriceRules(info).value, ratio);
    GridIsUsable(info, ratio);
    var units := OnGridMeans(Value(limit.price), g.tick);
    TicksCompare(units, 0, g.tick);
    GridPriceIsKept(request.side, units, g);
  }

  // ----- In plain numbers -----

  /** The price to go by: the multiple of the tick within a billionth of a tick of what was asked, or else what was
      asked. */
  ghost predicate GoesBy(asked: real, price: real, tick: real) {
    (exists k: int :: price == Ticks(k, tick) && -tick / 1000000000.0 <= asked - price <= tick / 1000000000.0)
    || (price == asked
        && forall k: int :: !(-tick / 1000000000.0 <= asked - Ticks(k, tick) <= tick / 1000000000.0))
  }

  lemma SnappedIsExact(asked: real, price: real, tick: real)
    requires tick > 0.0
    ensures GoesBy(asked, price, tick) <==> price == Snapped(asked, tick)
  {
    var k := SnapMeans(asked, tick);
    if k: int :| price == Ticks(k, tick) && -tick / 1000000000.0 <= asked - price <= tick / 1000000000.0 {
      SnapsTo(asked, tick, k);
    }
    if price == Snapped(asked, tick) {
      if j: int :| -tick / 1000000000.0 <= asked - Ticks(j, tick) <= tick / 1000000000.0 {
        SnapsTo(asked, tick, j);
      }
    }
  }

  /** The largest legal multiple a buy may be placed at, the smallest for a sell. */
  ghost predicate PlacedAt(side: Side, units: int, price: real, lower: real, upper: real, tick: real) {
    && lower <= Ticks(units, tick) <= upper
    && (side == Buy ==>
          Ticks(units, tick) <= price
          && forall k: int :: Ticks(k, tick) <= price && Ticks(k, tick) <= upper ==> k <= units)
    && (side == Sell ==>
          price <= Ticks(units, tick)
          && forall k: int :: price <= Ticks(k, tick) && lower <= Ticks(k, tick) ==> units <= k)
  }

  lemma UnitsAreExact(side: Side, units: int, price: real, g: Grid)
    requires Usable(g)
    ensures PlacedAt(side, units, price, g.low, g.high, g.tick)
            <==> units == UnitsOf(side, Cut(side, price, g), g.tick) && g.low <= Ticks(units, g.tick) <= g.high
                 && HasMultiple(if side == Buy then g.low else Cut(side, price, g),
                                if side == Buy then Cut(side, price, g) else g.high, g.tick)
  {
    var best := UnitsOf(side, Cut(side, price, g), g.tick);
    UnitsAreBest(side, Cut(side, price, g), g.tick);
    TicksCompare(units, best, g.tick);
    TicksCompare(best, units, g.tick);
  }

  /** What the terminal says of the instrument can be used: there, ready, positive, ordered, with some legal
      multiple. */
  ghost predicate Sound(info: InstrumentInfo) {
    && info.found && info.dataReady && info.tick.Finite? && info.lower.Finite? && info.upper.Finite?
    && !info.tick.negative && !info.lower.negative && !info.upper.negative
    && 0.0 < Value(info.tick.text) && 0.0 < Value(info.lower.text) <= Value(info.upper.text)
    && exists k: int :: Value(info.lower.text) <= Ticks(k, Value(info.tick.text)) <= Value(info.upper.text)
  }

  lemma SoundIsExact(info: InstrumentInfo)
    ensures Sound(info) <==> PriceRules(info).Ok?
    ensures Sound(info) ==> PriceRules(info).value == Rules(info.tick.text, info.lower.text, info.upper.text)
  {
    RulesExactly(info);
  }

  /** The band of a grid, in terms of the instrument and the configured share. */
  lemma GridIsExact(info: InstrumentInfo, ratio: real)
    requires Sound(info)
    ensures PriceRules(info).Ok?
    ensures var tick, lower, upper := Value(info.tick.text), Value(info.lower.text), Value(info.upper.text);
            GridOf(PriceRules(info).value, ratio)
            == Grid(tick, lower, upper, lower * (1.0 - ratio), upper * (1.0 + ratio))
  {
    hide Value, Ticks, Sound;
    SoundIsExact(info);
  }

  lemma AlignmentIsExact(side: Side, asked: real, price: real, units: int, g: Grid)
    requires Usable(g) && GoesBy(asked, price, g.tick)
    ensures Aligned(side, asked, g).Ok? && Aligned(side, asked, g).value.0 == units <==>
              && (side == Buy ==> g.low <= price <= g.highest + g.tick / 1000000000.0)
              && (side == Sell ==> g.lowest - g.tick / 1000000000.0 <= price <= g.high)
              && PlacedAt(side, units, price, g.low, g.high, g.tick)
  {
    hide Snapped, UnitsOf;
    SnappedIsExact(asked, price, g.tick);
    AcceptedExactly(side, asked, g);
    UnitsAreExact(side, units, price, g);
  }

  /** Which changes are reported: noise when the price was snapped or lies beyond the far end of the band, a limit
      when it was cut there, a direction when it was rounded. */
  lemma ReasonsAreExact(side: Side, asked: real, price: real, g: Grid)
    requires Usable(g) && GoesBy(asked, price, g.tick) && Aligned(side, asked, g).Ok?
    ensures var (units, reasons) := Aligned(side, asked, g).value; var placed := Ticks(units, g.tick);
            && (FloatNoise in reasons <==>
                  price != asked || (side == Buy && price > g.highest) || (side == Sell && price < g.lowest))
            && (UpperLimit in reasons <==> side == Buy && price > g.high)
            && (LowerLimit in reasons <==> side == Sell && price < g.low)
            && (TickFloor in reasons <==> side == Buy && placed != (if price > g.high then g.high else price))
            && (TickCeil in reasons <==> side == Sell && placed != (if price < g.low then g.low else price))
  {
    hide Snapped, Ticks;
    SnappedIsExact(asked, price, g.tick);
  }

  lemma MisalignmentIsExact(side: Side, asked: real, price: real, g: Grid)
    requires Usable(g) && GoesBy(asked, price, g.tick)
    ensures var r := Aligned(side, asked, g);
            && (r == Err(BuyBelowLower) <==> side == Buy && price < g.low)
            && (r == Err(BuyTooHigh) <==> side == Buy && price > g.highest + g.tick / 1000000000.0)
            && (r == Err(SellAboveUpper) <==> side == Sell && price > g.high)
            && (r == Err(SellTooLow) <==> side == Sell && price < g.lowest - g.tick / 1000000000.0)
            && (r.Err? ==> Status(r.error) == 422)
  {
    hide Snapped, UnitsOf, Ticks;
    SnappedIsExact(asked, price, g.tick);
  }

  /** Exactly when an order is accepted, and at which price: the data are sound, the volume is within the limits, the
      price to go by is on the right side of the near limit and beyond the far one by no more than the configured
      share and a billionth of a tick, some legal multiple lies between, and the best one survives transport. */
  lemma AcceptanceIsExact(request: LimitOrder, info: InstrumentInfo, ratio: real, survives: real -> bool, price: real,
                          units: int)
    requires 0.0 <= ratio < 1.0 && Sound(info) && GoesBy(Value(request.price), price, Value(info.tick.text))
    ensures var tick, lower, upper := Value(info.tick.text), Value(info.lower.text), Value(info.upper.text);
            var normal := Normalized(request, info, ratio, survives);
            normal.Ok? && Value(normal.value.0.price) == Ticks(units, tick) <==>
              && 1 <= info.minVolume <= request.volume <= info.maxVolume
              && (request.side == Buy ==> lower <= price <= upper * (1.0 + ratio) + tick / 1000000000.0)
              && (request.side == Sell ==> lower * (1.0 - ratio) - tick / 1000000000.0 <= price <= upper)
              && PlacedAt(request.side, units, price, lower, upper, tick) && survives(Ticks(units, tick))
  {
    hide Aligned, PriceRules, GridOf, Usable, PlacedAt, GoesBy, Value, Ticks, Sound;
    SoundIsExact(info);
    GridIsUsable(info, ratio);
    GridIsExact(info, ratio);
    var g := GridOf(PriceRules(info).value, ratio);
    AlignmentIsExact(request.side, Value(request.price), price, units, g);
    var aligned := Aligned(request.side, Value(request.price), g);
    if aligned.Ok? {
      AlignmentIsExact(request.side, Value(request.price), price, aligned.value.0, g);
      SameUnits(aligned.value.0, units, info);
    }
  }

  lemma SameUnits(a: int, b: int, info: InstrumentInfo)
    requires Sound(info)
    ensures Ticks(a, Value(info.tick.text)) == Ticks(b, Value(info.tick.text)) <==> a == b
  {
    TicksCompare(a, b, Value(info.tick.text));
    TicksCompare(b, a, Value(info.tick.text));
  }

  /** And without sound data, or with a volume out of range, nothing is accepted. */
  lemma UnusableIsRefused(request: LimitOrder, info: InstrumentInfo, ratio: real, survives: real -> bool)
    ensures Normalized(request, info, ratio, survives).Ok? ==>
              Sound(info) && 1 <= info.minVolume <= request.volume <= info.maxVolume
    ensures !Sound(info) ==>
              Normalized(request, info, ratio, survives).Err?
              && Status(Normalized(request, info, ratio, survives).error) == 503
    ensures Sound(info) && 1 <= info.minVolume <= info.maxVolume
            && !(info.minVolume <= request.volume <= info.maxVolume) ==>
              Normalized(request, info, ratio, survives).Err?
              && Status(Normalized(request, info, ratio, survives).error) == 422
    ensures Sound(info) && !(1 <= info.minVolume <= info.maxVolume) ==>
              Normalized(request, info, ratio, survives).Err?
              && Status(Normalized(request, info, ratio, survives).error) == 503
  {
    SoundIsExact(info);
  }

  /** What an accepted order asked for, and what is placed: within the limits, on the grid, never worse than asked by
      more than a billionth of a tick, the best such price, and asked no further out than the configured share
      allows. */
  lemma AcceptedOrderIsWithinTheShare(request: LimitOrder, info: InstrumentInfo, ratio: real, survives: real -> bool,
                                      k: int)
    requires 0.0 <= ratio < 1.0 && Normalized(request, info, ratio, survives).Ok?
    ensures var tick, lower, upper := Value(info.tick.text), Value(info.lower.text), Value(info.upper.text);
            var asked, placed := Value(request.price), Value(Normalized(request, info, ratio, survives).value.0.price);
            && lower <= placed <= upper && (exists units: int :: placed == Ticks(units, tick)) && survives(placed)
            && (request.side == Buy ==>
                  placed <= asked + tick / 1000000000.0 && asked <= upper * (1.0 + ratio) + 2.0 * tick / 1000000000.0
                  && lower - tick / 1000000000.0 <= asked
                  && (Ticks(k, tick) <= asked && Ticks(k, tick) <= upper ==> Ticks(k, tick) <= placed))
            && (request.side == Sell ==>
                  asked - tick / 1000000000.0 <= placed
                  && lower * (1.0 - ratio) - 2.0 * tick / 1000000000.0 <= asked <= upper + tick / 1000000000.0
                  && (asked <= Ticks(k, tick) && lower <= Ticks(k, tick) ==> placed <= Ticks(k, tick)))
  {
    UnusableIsRefused(request, info, ratio, survives);
    SoundIsExact(info);
    var tick, asked := Value(info.tick.text), Value(request.price);
    var price := Snapped(asked, tick);
    SnappedIsExact(asked, price, tick);
    var normal := Normalized(request, info, ratio, survives).value.0;
    var units := Aligned(request.side, asked, GridOf(PriceRules(info).value, ratio)).value.0;
    AcceptanceIsExact(request, info, ratio, survives, price, units);
    BestOfAsked(request.side, units, asked, price, Value(info.lower.text), Value(info.upper.text), tick, k);
  }

  lemma BestOfAsked(side: Side, units: int, asked: real, price: real, lower: real, upper: real, tick: real, k: int)
    requires tick > 0.0 && GoesBy(asked, price, tick) && PlacedAt(side, units, price, lower, upper, tick)
    ensures -tick / 1000000000.0 <= asked - price <= tick / 1000000000.0
    ensures side == Buy && Ticks(k, tick) <= asked && Ticks(k, tick) <= upper ==> Ticks(k, tick) <= Ticks(units, tick)
    ensures side == Sell && asked <= Ticks(k, tick) && lower <= Ticks(k, tick) ==> Ticks(units, tick) <= Ticks(k, tick)
  {
    TicksCompare(k, units, tick);
    TicksCompare(units, k, tick);
    if m: int :| price == Ticks(m, tick) && -tick / 1000000000.0 <= asked - price <= tick / 1000000000.0 {
      if k < m { TicksScale(k, m, tick); } else if k > m { TicksScale(m, k, tick); }
    }
  }

  /** Why a price is refused, for sound data and a volume within the limits. */
  lemma RefusalIsExact(request: LimitOrder, info: InstrumentInfo, ratio: real, survives: real -> bool, price: real)
    requires 0.0 <= ratio < 1.0 && Sound(info) && GoesBy(Value(request.price), price, Value(info.tick.text))
    requires 1 <= info.minVolume <= request.volume <= info.maxVolume
    ensures var tick, lower, upper := Value(info.tick.text), Value(info.lower.text), Value(info.upper.text);
            var normal := Normalized(request, info, ratio, survives); var buy := request.side == Buy;
            && (normal == Err(BuyBelowLower) <==> buy && price < lower)
            && (normal == Err(BuyTooHigh) <==> buy && price > upper * (1.0 + ratio) + tick / 1000000000.0)
            && (normal == Err(SellAboveUpper) <==> !buy && price > upper)
            && (normal == Err(SellTooLow) <==> !buy && price < lower * (1.0 - ratio) - tick / 1000000000.0)
            && (normal.Err? ==> Status(normal.error) == 422)
  {
    hide Aligned, PriceRules, GridOf, Usable, GoesBy, Value, Ticks, Sound;
    SoundIsExact(info);
    GridIsUsable(info, ratio);
    GridIsExact(info, ratio);
    MisalignmentIsExact(request.side, Value(request.price), price, GridOf(PriceRules(info).value, ratio));
  }

  /** The strict check at the trading entrance passes exactly a price that is legal as it stands. */
  lemma StrictCheckIsExact(request: LimitOrder, info: InstrumentInfo, survives: real -> bool)
    ensures ValidateLimit(request, info, survives).None? <==>
              && Sound(info) && 1 <= info.minVolume <= request.volume <= info.maxVolume
              && Value(info.lower.text) <= Value(request.price) <= Value(info.upper.text)
              && (exists k: int :: Value(request.price) == Ticks(k, Value(info.tick.text)))
              && survives(Value(request.price))
  {
    SoundIsExact(info);
    if Sound(info) { GridIsMultiples(Value(request.price), Value(info.tick.text)); }
  }

  lemma GridIsMultiples(price: real, tick: real)
    requires tick > 0.0
    ensures OnGrid(price, tick) <==> exists k: int :: price == Ticks(k, tick)
  {
    if OnGrid(price, tick) { var units := OnGridMeans(price, tick); }
    if k: int :| price == Ticks(k, tick) { GridPoint(k, tick); }
  }

  /** A market order is accepted exactly during continuous trading, with sound data, a volume within the limits, and the
      limit of its side on the grid and transportable; it is placed at that limit, immediate or cancel. */
  lemma MarketIsExact(request: LimitOrder, info: InstrumentInfo, survives: real -> bool)
    ensures var limit := EmulatedMarket(request, info, survives);
            var edge := if request.side == Buy then info.upper else info.lower;
            && (limit.Ok? <==>
                  && info.status == 3 && Sound(info) && 1 <= info.minVolume <= request.volume <= info.maxVolume
                  && (exists k: int :: Value(edge.text) == Ticks(k, Value(info.tick.text)))
                  && survives(Value(edge.text)))
            && (limit.Ok? ==>
                  limit.value == request.(price := edge.text, tif := ImmediateOrCancel))
            && (info.status != 3 ==> limit == Err(NotTrading) && Status(NotTrading) == 409)
            && (info.status == 3 && !Sound(info) ==> limit.Err? && Status(limit.error) == 503)
            && (info.status == 3 && Sound(info)
                && !(exists k: int :: Value(edge.text) == Ticks(k, Value(info.tick.text))) ==>
                  limit == Err(BoundaryOffGrid) && Status(BoundaryOffGrid) == 503)
  {
    SoundIsExact(info);
    if Sound(info) {
      var edge := if request.side == Buy then info.upper else info.lower;
      StrictCheckIsExact(request.(price := edge.text, tif := ImmediateOrCancel), info, survives);
      GridIsMultiples(Value(edge.text), Value(info.tick.text));
    }
  }
}
