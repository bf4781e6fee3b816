/**
 * The single global macro-economic walk: inflation and the interest rate
 * each take a small normal increment every day and are re-clamped into
 * their band after every increment.
 */
module Macro {
  import opened RealOps

  const InflationLow: real := 2.5
  const InflationHigh: real := 9.0
  const RateLow: real := 3.5
  const RateHigh: real := 10.0

  /** The two series' values on one day. */
  datatype MacroState = MacroState(inflation: real, interestRate: real)

  /** Where the walk starts before the first date. */
  const InitialState: MacroState := MacroState(5.5, 6.5)

  /** One day's increments, drawn from Normal(0, 0.02) and Normal(0, 0.015). */
  datatype MacroDraws = MacroDraws(inflationNoise: real, rateNoise: real)

  /** One emitted row. */
  datatype MacroRow = MacroRow(date: int, state: MacroState)

  /** Both series inside their bands. */
  predicate InBands(s: MacroState)
  {
    InflationLow <= s.inflation <= InflationHigh && RateLow <= s.interestRate <= RateHigh
  }

  /**
   * One day: add the increments to the previous (already clamped) values,
   * then clamp. Whatever the previous state and the increments, the new
   * state is inside the bands; a sum that stays in its band is kept as is.
   */
  function MacroStep(s: MacroState, d: MacroDraws): (t: MacroState)
    ensures InBands(t)
    ensures InflationLow <= s.inflation + d.inflationNoise <= InflationHigh ==>
      t.inflation == s.inflation + d.inflationNoise
    ensures RateLow <= s.interestRate + d.rateNoise <= RateHigh ==>
      t.interestRate == s.interestRate + d.rateNoise
  {
    MacroState(Clamp(s.inflation + d.inflationNoise, InflationLow, InflationHigh),
               Clamp(s.interestRate + d.rateNoise, RateLow, RateHigh))
  }

  /**
   * The whole macro table: one row per date, every row inside the bands,
   * the first a step from the initial state and each later one a step from
   * the previous row's clamped values.
   */
  method GenerateMacro(dates: seq<int>, draws: seq<MacroDraws>) returns (rows: seq<MacroRow>)
    requires |draws| == |dates|
    ensures |rows| == |dates|
    ensures forall i :: 0 <= i < |rows| ==> rows[i].date == dates[i] && InBands(rows[i].state)
    ensures 0 < |rows| ==> rows[0].state == MacroStep(InitialState, draws[0])
    ensures forall i :: 0 < i < |rows| ==> rows[i].state == MacroStep(rows[i - 1].state, draws[i])
  {
    rows := [];
    var state := InitialState;
    var i := 0;
    while i < |dates|
      invariant 0 <= i <= |dates|
      invariant |rows| == i
      invariant forall k :: 0 <= k < i ==> rows[k].date == dates[k] && InBands(rows[k].state)
      invariant 0 < i ==> rows[0].state == MacroStep(InitialState, draws[0])
      invariant forall k :: 0 < k < i ==> rows[k].state == MacroStep(rows[k - 1].state, draws[k])
      invariant 0 < i ==> state == rows[i - 1].state
      invariant i == 0 ==> state == InitialState
    {
      state := MacroStep(state, draws[i]);
      rows := rows + [MacroRow(dates[i], state)];
      i := i + 1;
    }
  }
}
