/** The price of a call: saturating 64-bit arithmetic over the release-owned table of token prices. */
module Pricing {
  import opened Numbers
  import opened Options
  import opened SseUsage

  const LONG_CONTEXT_THRESHOLD := 272_000

  /** Prices per token, in billionths of a dollar. */
  datatype Rates = Rates(input: int, cached: int, cacheWrite: int, output: int)

  datatype Pricing = Pricing(model: string, short: Rates, long: Option<Rates>) {
    /** `TokenPricing::rates`. */
    function At(inputTokens: int): Rates {
      if inputTokens >= LONG_CONTEXT_THRESHOLD then long.GetOr(short) else short
    }
  }

  const GPT_5_4_AND_LATER: seq<Pricing> := [
    Pricing("gpt-5.6-sol", Rates(5000, 500, 6250, 30000), Some(Rates(10000, 1000, 12500, 45000))),
    Pricing("gpt-5.6-terra", Rates(2000, 200, 2500, 12000), Some(Rates(4000, 400, 5000, 18000))),
    Pricing("gpt-5.6-luna", Rates(200, 20, 250, 1200), Some(Rates(400, 40, 500, 1800))),
    Pricing("gpt-5.5", Rates(5000, 500, 0, 30000), Some(Rates(10000, 1000, 0, 45000))),
    Pricing("gpt-5.5-pro", Rates(30000, 0, 0, 180000), Some(Rates(60000, 0, 0, 270000))),
    Pricing("gpt-5.4", Rates(2500, 250, 0, 15000), Some(Rates(5000, 500, 0, 22500))),
    Pricing("gpt-5.4-mini", Rates(750, 75, 0, 4500), None),
    Pricing("gpt-5.4-nano", Rates(200, 20, 0, 1250), None),
    Pricing("gpt-5.4-pro", Rates(30000, 0, 0, 180000), Some(Rates(60000, 0, 0, 270000)))
  ]

  const GPT_5: seq<Pricing> := [
    Pricing("gpt-5.3-codex", Rates(1750, 175, 0, 14000), None),
    Pricing("gpt-5.2", Rates(1750, 175, 0, 14000), None),
    Pricing("gpt-5.2-pro", Rates(21000, 0, 0, 168000), None),
    Pricing("gpt-5.1", Rates(1250, 125, 0, 10000), None),
    Pricing("gpt-5", Rates(1250, 125, 0, 10000), None),
    Pricing("gpt-5-mini", Rates(250, 25, 0, 2000), None),
    Pricing("gpt-5-nano", Rates(50, 5, 0, 400), None),
    Pricing("gpt-5-pro", Rates(15000, 0, 0, 120000), None)
  ]

  const GPT_4_AND_O: seq<Pricing> := [
    Pricing("gpt-4.1", Rates(2000, 500, 0, 8000), None),
    Pricing("gpt-4.1-mini", Rates(400, 100, 0, 1600), None),
    Pricing("gpt-4.1-nano", Rates(100, 25, 0, 400), None),
    Pricing("gpt-4o", Rates(2500, 1250, 0, 10000), None),
    Pricing("gpt-4o-mini", Rates(150, 75, 0, 600), None),
    Pricing("o1", Rates(15000, 7500, 0, 60000), None),
    Pricing("o1-pro", Rates(150000, 0, 0, 600000), None),
    Pricing("o3", Rates(2000, 500, 0, 8000), None),
    Pricing("o3-pro", Rates(20000, 0, 0, 80000), None),
    Pricing("o4-mini", Rates(1100, 275, 0, 4400), None),
    Pricing("o3-mini", Rates(1100, 550, 0, 4400), None),
    Pricing("gpt-4o-transcribe", Rates(2500, 0, 0, 10000), None),
    Pricing("gpt-4o-mini-transcribe", Rates(1250, 0, 0, 5000), None)
  ]

  /** The table, in the order it is searched. */
  const TABLE: seq<Pricing> := GPT_5_4_AND_LATER + GPT_5 + GPT_4_AND_O

  // ----- Saturating arithmetic

  function Saturated(x: int): int {
    if x > I64_MAX then I64_MAX else if x < I64_MIN then I64_MIN else x
  }

  function SatAdd(a: int, b: int): int { Saturated(a + b) }

  function SatSub(a: int, b: int): int { Saturated(a - b) }

  function SatMul(a: int, b: int): int { Saturated(a * b) }

  function Clamped(x: int, lo: int, hi: int): int
    requires lo <= hi
  {
    if x < lo then lo else if x > hi then hi else x
  }

  // ----- The cost

  /** A call of `cost_usd_nanos` finds no price, returns one, or panics in `clamp` because the bounds are crossed. */
  datatype Cost = Unpriced | Priced(nanos: int) | Panics

  predicate InRange(usage: Usage) {
    && I64_MIN <= usage.input <= I64_MAX && I64_MIN <= usage.output <= I64_MAX
    && I64_MIN <= usage.cached <= I64_MAX && I64_MIN <= usage.cacheWrite <= I64_MAX
  }

  function Lookup(table: seq<Pricing>, model: string): (found: Option<Pricing>)
    ensures found.Some? ==> found.value in table && found.value.model == model
    ensures found.None? ==> forall p :: p in table ==> p.model != model
  {
    if table == [] then None
    else if table[0].model == model then Some(table[0])
    else Lookup(table[1..], model)
  }

  function CostUsdNanos(model: string, usage: Usage): Cost {
    CostUnder(Lookup(TABLE, model), usage)
  }

  function CostUnder(found: Option<Pricing>, usage: Usage): Cost {
    match found
    case None => Unpriced
    case Some(pricing) => CostAt(pricing.At(usage.input), usage)
  }

  /** How many input tokens are billed as plain, as cached and as written to the cache. */
  datatype Split = Split(plain: int, cached: int, cacheWrite: int)

  /** The split as it is computed; `None` where `clamp(0, uncached)` panics. */
  function SaturatingSplit(rates: Rates, usage: Usage): Option<Split> {
    var cached := Clamped(usage.cached, 0, Max(usage.input, 0));
    var uncached := SatSub(usage.input, cached);
    if rates.cacheWrite == 0 then Some(Split(uncached, cached, 0))
    else if uncached < 0 then None
    else
      var cacheWrite := Clamped(usage.cacheWrite, 0, uncached);
      Some(Split(SatSub(uncached, cacheWrite), cached, cacheWrite))
  }

  function CostAt(rates: Rates, usage: Usage): Cost {
    match SaturatingSplit(rates, usage)
    case None => Panics
    case Some(split) => Priced(Billed(split, Max(usage.output, 0), rates))
  }

  function Billed(s: Split, output: int, rates: Rates): int {
    SatAdd(SatAdd(SatAdd(SatMul(s.plain, rates.input), SatMul(s.cached, rates.cached)),
                  SatMul(s.cacheWrite, rates.cacheWrite)),
           SatMul(output, rates.output))
  }

  // ----- What the table guarantees

  /** A discount for cached tokens, none for writing the cache, and nothing below zero. */
  predicate Sensible(r: Rates) {
    && 0 <= r.cached <= r.input && 0 <= r.output && 0 <= r.cacheWrite
    && (r.cacheWrite != 0 ==> r.input <= r.cacheWrite)
  }

  /** Long-context prices are no lower, and charge for cache writes exactly when the short ones do. */
  predicate Dearer(short: Rates, long: Rates) {
    && short.input <= long.input && short.cached <= long.cached && short.cacheWrite <= long.cacheWrite
        && short.output <= long.output
    && (short.cacheWrite == 0 <==> long.cacheWrite == 0)
  }

  predicate SensiblePricing(p: Pricing) {
    Sensible(p.short) && (p.long.Some? ==> Sensible(p.long.value) && Dearer(p.short, p.long.value))
  }

  lemma RecentPricesAreSensible(p: Pricing)
    requires p in GPT_5_4_AND_LATER || p in GPT_5
    ensures SensiblePricing(p)
  {
  }

  lemma OlderPricesAreSensible(p: Pricing)
    requires p in GPT_4_AND_O
    ensures SensiblePricing(p)
  {
  }

  lemma TableIsSensible(p: Pricing)
    requires p in TABLE
    ensures SensiblePricing(p)
  {
    if p in GPT_4_AND_O {
      OlderPricesAreSensible(p);
    } else {
      RecentPricesAreSensible(p);
    }
  }

  // ----- The exact price

  function SplitOf(rates: Rates, usage: Usage): Split
    requires usage.input >= 0
  {
    var cached := Clamped(usage.cached, 0, usage.input);
    var cacheWrite := if rates.cacheWrite == 0 then 0 else Clamped(usage.cacheWrite, 0, usage.input - cached);
    Split(usage.input - cached - cacheWrite, cached, cacheWrite)
  }

  /** The price over unbounded integers. */
  function ExactPrice(rates: Rates, usage: Usage): int
    requires usage.input >= 0
  {
    Exactly(SplitOf(rates, usage), Max(usage.output, 0), rates)
  }

  function Exactly(s: Split, output: int, rates: Rates): int {
    s.plain * rates.input + s.cached * rates.cached + s.cacheWrite * rates.cacheWrite + output * rates.output
  }

  /** Every input token is billed exactly once. */
  lemma InputIsPartitioned(rates: Rates, usage: Usage)
    requires usage.input >= 0
    ensures var s := SplitOf(rates, usage);
            s.plain >= 0 && s.cached >= 0 && s.cacheWrite >= 0 && s.plain + s.cached + s.cacheWrite == usage.input
  {
  }

  lemma ProductIsNonNegative(a: int, b: int)
    requires a >= 0 && b >= 0
    ensures a * b >= 0
  {
  }

  lemma SaturatedSum(a: int, b: int)
    requires a >= 0 && b >= 0
    ensures Saturated(a) == Min(a, I64_MAX)
    ensures SatAdd(Min(a, I64_MAX), Saturated(b)) == Min(a + b, I64_MAX)
  {
  }

  lemma BilledIsExact(s: Split, output: int, rates: Rates)
    requires s.plain >= 0 && s.cached >= 0 && s.cacheWrite >= 0 && output >= 0 && Sensible(rates)
    ensures Billed(s, output, rates) == Min(Exactly(s, output, rates), I64_MAX)
  {
    var a, b, c, d := s.plain * rates.input, s.cached * rates.cached, s.cacheWrite * rates.cacheWrite,
        output * rates.output;
    ProductIsNonNegative(s.plain, rates.input);
    ProductIsNonNegative(s.cached, rates.cached);
    ProductIsNonNegative(s.cacheWrite, rates.cacheWrite);
    ProductIsNonNegative(output, rates.output);
    SaturatedSum(a, b);
    SaturatedSum(a + b, c);
    SaturatedSum(a + b + c, d);
  }

  lemma SplitIsExact(rates: Rates, usage: Usage)
    requires InRange(usage) && usage.input >= 0
    ensures SaturatingSplit(rates, usage) == Some(SplitOf(rates, usage))
  {
  }

  lemma CostAtIsExact(rates: Rates, usage: Usage)
    requires InRange(usage) && usage.input >= 0 && Sensible(rates)
    ensures CostAt(rates, usage) == Priced(Min(ExactPrice(rates, usage), I64_MAX))
  {
    SplitIsExact(rates, usage);
    BilledIsExact(SplitOf(rates, usage), Max(usage.output, 0), rates);
  }

  lemma ExactUnder(found: Option<Pricing>, usage: Usage)
    requires InRange(usage) && usage.input >= 0 && (found.Some? ==> SensiblePricing(found.value))
    ensures CostUnder(found, usage) ==
            match found
            case None => Unpriced
            case Some(p) => Priced(Min(ExactPrice(p.At(usage.input), usage), I64_MAX))
  {
    if found.Some? {
      CostAtIsExact(found.value.At(usage.input), usage);
    }
  }

  /**
   For every priced model and every usage whose input count is not negative, the cost is the exact price cut
   off at `i64::MAX`.
   */
  lemma CostIsExactUpToSaturation(model: string, usage: Usage)
    requires InRange(usage) && usage.input >= 0
    ensures CostUsdNanos(model, usage) ==
            match Lookup(TABLE, model)
            case None => Unpriced
            case Some(p) =>
              Priced(Min(ExactPrice(if usage.input >= 272_000 && p.long.Some? then p.long.value else p.short, usage),
                         I64_MAX))
  {
    FoundIsSensible(model);
    ExactUnder(Lookup(TABLE, model), usage);
  }

  /** Counts that make sense together. */
  predicate Plausible(usage: Usage) {
    0 <= usage.cached && 0 <= usage.cacheWrite && usage.cached + usage.cacheWrite <= usage.input && 0 <= usage.output
  }

  /** Cached tokens, tokens written to the cache if that is charged for, and the other input at three prices. */
  lemma PlausibleUsageIsBilledByCount(rates: Rates, usage: Usage)
    requires Plausible(usage)
    ensures ExactPrice(rates, usage) ==
            (usage.input - usage.cached - usage.cacheWrite) * rates.input + usage.cached * rates.cached
            + usage.cacheWrite * (if rates.cacheWrite == 0 then rates.input else rates.cacheWrite)
            + usage.output * rates.output
  {
    Distribute(usage.input - usage.cached, usage.cacheWrite, rates.input);
  }

  /**
   Counts that do not are cut off: to no less than nothing, to the input, and to what the cached tokens leave
   of it.
   */
  lemma ImplausibleCountsAreCutOff(rates: Rates, usage: Usage)
    requires usage.input >= 0
    ensures usage.cached < 0 ==> ExactPrice(rates, usage) == ExactPrice(rates, usage.(cached := 0))
    ensures usage.cached > usage.input ==> ExactPrice(rates, usage) == ExactPrice(rates, usage.(cached := usage.input))
    ensures usage.cacheWrite < 0 ==> ExactPrice(rates, usage) == ExactPrice(rates, usage.(cacheWrite := 0))
    ensures 0 <= usage.cached <= usage.input < usage.cached + usage.cacheWrite ==>
              ExactPrice(rates, usage) == ExactPrice(rates, usage.(cacheWrite := usage.input - usage.cached))
    ensures usage.output < 0 ==> ExactPrice(rates, usage) == ExactPrice(rates, usage.(output := 0))
  {
  }

  lemma FoundIsSensible(model: string)
    ensures Lookup(TABLE, model).Some? ==> SensiblePricing(Lookup(TABLE, model).value)
  {
    if Lookup(TABLE, model).Some? {
      TableIsSensible(Lookup(TABLE, model).value);
    }
  }

  lemma SplitFailsIffNegative(rates: Rates, usage: Usage)
    ensures SaturatingSplit(rates, usage) == None <==> usage.input < 0 && rates.cacheWrite != 0
  {
  }

  lemma PanicsUnder(found: Option<Pricing>, usage: Usage)
    ensures CostUnder(found, usage).Panics? <==> usage.input < 0 && found.Some? && found.value.short.cacheWrite != 0
  {
    if found.Some? {
      SplitFailsIffNegative(found.value.At(usage.input), usage);
    }
  }

  /** Pricing panics exactly for a negative input count on a model that charges for cache writes. */
  lemma PanicsIffNegativeInput(model: string, usage: Usage)
    ensures CostUsdNanos(model, usage).Panics? <==>
            && usage.input < 0
            && Lookup(TABLE, model).Some? && Lookup(TABLE, model).value.short.cacheWrite != 0
  {
    PanicsUnder(Lookup(TABLE, model), usage);
  }

  lemma NegativeInputPanics()
    ensures CostUsdNanos("gpt-5.6-sol", Usage(-1, 0, 0, 0)) == Panics
  {
    assert TABLE[0] == GPT_5_4_AND_LATER[0];
    assert Lookup(TABLE, "gpt-5.6-sol") == Some(TABLE[0]);
  }

  // ----- Monotonicity

  lemma ProductsAreMonotone(a: int, b: int, x: int, y: int)
    requires 0 <= a <= b && 0 <= x <= y
    ensures a * x <= b * y
  {
    assert b * y - a * x == (b - a) * y + a * (y - x);
    ProductIsNonNegative(b - a, y);
    ProductIsNonNegative(a, y - x);
  }

  lemma DearerCostsMore(short: Rates, long: Rates, usage: Usage, more: Usage)
    requires Sensible(short) && Sensible(long) && Dearer(short, long)
    requires 0 <= usage.input <= more.input && usage.output <= more.output && more.cached == usage.cached
        && more.cacheWrite == usage.cacheWrite
    ensures ExactPrice(short, usage) <= ExactPrice(long, more)
  {
    var s, t := SplitOf(short, usage), SplitOf(long, more);
    ProductsAreMonotone(s.plain, t.plain, short.input, long.input);
    ProductsAreMonotone(s.cached, t.cached, short.cached, long.cached);
    ProductsAreMonotone(s.cacheWrite, t.cacheWrite, short.cacheWrite, long.cacheWrite);
    ProductsAreMonotone(Max(usage.output, 0), Max(more.output, 0), short.output, long.output);
  }

  predicate AtMost(a: Cost, b: Cost) {
    (a == Unpriced && b == Unpriced) || (a.Priced? && b.Priced? && a.nanos <= b.nanos)
  }

  lemma MonotoneUnder(found: Option<Pricing>, usage: Usage, more: Usage)
    requires InRange(usage) && InRange(more) && (found.Some? ==> SensiblePricing(found.value))
    requires 0 <= usage.input <= more.input && usage.output <= more.output && more.cached == usage.cached
        && more.cacheWrite == usage.cacheWrite
    ensures AtMost(CostUnder(found, usage), CostUnder(found, more))
  {
    ExactUnder(found, usage);
    ExactUnder(found, more);
    if found.Some? {
      DearerCostsMore(found.value.At(usage.input), found.value.At(more.input), usage, more);
    }
  }

  /** More input tokens, even across the long-context threshold, and more output tokens never cost less. */
  lemma CostIsMonotone(model: string, usage: Usage, more: Usage)
    requires InRange(usage) && InRange(more)
    requires 0 <= usage.input <= more.input && usage.output <= more.output && more.cached == usage.cached
        && more.cacheWrite == usage.cacheWrite
    ensures AtMost(CostUsdNanos(model, usage), CostUsdNanos(model, more))
  {
    FoundIsSensible(model);
    MonotoneUnder(Lookup(TABLE, model), usage, more);
  }

  lemma Distribute(a: int, b: int, x: int)
    ensures (a - b) * x == a * x - b * x == x * (a - b) && x * a == a * x && x * b == b * x && (-b) * x == -(b * x)
  {
  }

  lemma CachingCostsLess(rates: Rates, usage: Usage, more: Usage)
    requires Sensible(rates) && usage.input >= 0 && usage.cached <= more.cached && more == usage.(cached := more.cached)
    ensures ExactPrice(rates, more) <= ExactPrice(rates, usage)
  {
    var s, t := SplitOf(rates, usage), SplitOf(rates, more);
    var moved, written := s.plain - t.plain, s.cacheWrite - t.cacheWrite;
    assert t.cached - s.cached == moved + written && moved >= 0 && written >= 0;
    Distribute(s.plain, t.plain, rates.input);
    Distribute(s.cacheWrite, t.cacheWrite, rates.cacheWrite);
    Distribute(t.cached, s.cached, rates.cached);
    Distribute(moved, -written, rates.cached);
    Distribute(rates.input, rates.cached, moved);
    Distribute(rates.cacheWrite, rates.cached, written);
    ProductIsNonNegative(moved, rates.input - rates.cached);
    if written > 0 {
      ProductIsNonNegative(written, rates.cacheWrite - rates.cached);
    }
  }

  lemma CachingUnder(found: Option<Pricing>, usage: Usage, more: Usage)
    requires InRange(usage) && InRange(more) && usage.input >= 0 && (found.Some? ==> SensiblePricing(found.value))
    requires usage.cached <= more.cached && more == usage.(cached := more.cached)
    ensures AtMost(CostUnder(found, more), CostUnder(found, usage))
  {
    ExactUnder(found, usage);
    ExactUnder(found, more);
    if found.Some? {
      CachingCostsLess(found.value.At(usage.input), usage, more);
    }
  }

  /** Reporting more of the same input as cached never raises the cost. */
  lemma CachingNeverRaisesCost(model: string, usage: Usage, cached: int)
    requires InRange(usage) && usage.input >= 0 && usage.cached <= cached <= I64_MAX
    ensures AtMost(CostUsdNanos(model, usage.(cached := cached)), CostUsdNanos(model, usage))
  {
    FoundIsSensible(model);
    CachingUnder(Lookup(TABLE, model), usage, usage.(cached := cached));
  }
}
