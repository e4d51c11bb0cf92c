/** Clock conversions (rm32/src/platform.rs). `timerHz` is the port's interval
    timer rate; the supported range is the one the source checks at build time. */
module Platform {
  import opened Words
  import FastMath

  predicate SupportedTimer(timerHz: nat) { 1_000_000 <= timerHz <= 2_000_000 }

  function UsToTicks(timerHz: nat, us: U32): (t: nat)
    requires SupportedTimer(timerHz)
  {
    us * timerHz / 1_000_000
  }

  /** Six step intervals to microseconds. */
  function SixIntervalsToUs(timerHz: nat, sum: nat): (us: I32)
    requires SupportedTimer(timerHz) && sum <= 6 * 65535
  {
    if timerHz == 2_000_000 then (sum + 4) / 2
    else
      RoundedPeriodFits(timerHz, sum);
      RoundedPeriod(timerHz, sum)
  }

  function RoundedPeriod(timerHz: nat, sum: nat): nat
    requires timerHz > 0
  {
    (sum * 1_000_000 + timerHz / 2) / timerHz
  }

  lemma RoundedPeriodFits(timerHz: nat, sum: nat)
    requires SupportedTimer(timerHz) && sum <= 6 * 65535
    ensures RoundedPeriod(timerHz, sum) <= sum + 1
  {
    var n: nat, q: nat := sum * 1_000_000 + timerHz / 2, sum + 2;
    DivMod(n, timerHz);
    assert n < sum * 1_000_000 + timerHz;
    ProductBelow(sum + 1, 1_000_000, sum + 1, timerHz);
    if n / timerHz >= q { ProductBelow(q, timerHz, n / timerHz, timerHz); }
  }

  /** At every rate but 2 MHz the period is the nearest microsecond. */
  lemma PeriodIsNearest(timerHz: nat, sum: nat)
    requires SupportedTimer(timerHz) && sum <= 6 * 65535 && timerHz != 2_000_000
    ensures 2 * (SixIntervalsToUs(timerHz, sum) as int * timerHz as int - sum as int * 1_000_000) <= timerHz
    ensures 2 * (sum as int * 1_000_000 - SixIntervalsToUs(timerHz, sum) as int * timerHz as int) <= timerHz
  {
    NearestQuotient(sum * 1_000_000, timerHz);
  }

  lemma NearestQuotient(n: int, d: int)
    requires d > 0
    ensures 2 * ((n + d / 2) / d * d - n) <= d && 2 * (n - (n + d / 2) / d * d) <= d
  {
    DivMod(n + d / 2, d);
  }

  function EComUsToAvgTicks(timerHz: nat, eComUs: I32): int
    requires SupportedTimer(timerHz)
  {
    if timerHz == 2_000_000 then FastMath.Div3I32(eComUs) else TruncatingProduct(eComUs, timerHz)
  }

  function TruncatingProduct(eComUs: int, timerHz: nat): int { FastMath.TruncatingDiv(eComUs * timerHz, 6_000_000) }

  /** Microseconds to ticks and period to average interval round down at every rate. */
  lemma ConversionsRoundDown(timerHz: nat, us: U32, eComUs: I32)
    requires SupportedTimer(timerHz) && eComUs >= 0
    ensures var t: int := UsToTicks(timerHz, us);
      t * 1_000_000 <= us as int * timerHz as int < (t + 1) * 1_000_000
    ensures var average := EComUsToAvgTicks(timerHz, eComUs);
      average * 6_000_000 <= eComUs as int * timerHz as int < (average + 1) * 6_000_000
  {
    DivMod(us * timerHz, 1_000_000);
    DivMod(eComUs as int * timerHz, 6_000_000);
    assert eComUs as int * timerHz >= 0;
  }

  /** At 2 MHz the two conversions compose to the average of six intervals,
      rounded to nearest. */
  lemma AverageAt2MHz(sum: nat)
    requires sum <= 6 * 65535
    ensures SixIntervalsToUs(2_000_000, sum) == (sum + 4) / 2
    ensures EComUsToAvgTicks(2_000_000, SixIntervalsToUs(2_000_000, sum)) == (sum + 4) / 6
  {
    assert ((sum + 4) / 2) / 3 == (sum + 4) / 6;
  }
}
