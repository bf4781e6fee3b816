/**
 * The daily trading-volume series: a per-company base volume drawn once
 * from its size tier's range, scaled each day by the sector multiplier, a
 * seasonal wave, uniform noise and a rare spike, then truncated to an
 * integer.
 */
module Volume {
  import opened RealOps
  import opened Catalog

  /** Probability that a day carries a volume spike. */
  const SpikeProbability: real := 0.02

  /** Days per seasonal unit: the seasonal factor is `1 + 0.2 * sin(i / 200)`. */
  const SeasonPeriod: real := 200.0
  const SeasonAmplitude: real := 0.2

  /** The least volume any day can show: 500000 * 1.0 * 0.8 * 0.7 * 1. */
  const MinDailyVolume: int := 280000

  /**
   * One day's draws: the uniform noise, the uniform roll deciding whether a
   * spike happens, and the spike size used when it does.
   */
  datatype VolumeDraws = VolumeDraws(noise: real, roll: real, spikeSize: real)

  /** The stated ranges of the three draws. */
  predicate DrawsInRange(d: VolumeDraws)
  {
    0.7 <= d.noise <= 1.3 && 0.0 <= d.roll < 1.0 && 1.5 <= d.spikeSize <= 4.0
  }

  /** One emitted row. */
  datatype VolumeRow = VolumeRow(date: int, company: string, volume: int)

  /** The seasonal factor for a given value of the sine; within [0.8, 1.2] for a sine in [-1, 1]. */
  function Seasonal(sineValue: real): (f: real)
    ensures -1.0 <= sineValue <= 1.0 ==> 0.8 <= f <= 1.2
  {
    1.0 + SeasonAmplitude * sineValue
  }

  /** The spike factor of a day: the drawn size when the roll falls under the spike probability, else 1. */
  function SpikeFactor(d: VolumeDraws): (s: real)
    ensures d.roll < SpikeProbability ==> s == d.spikeSize
    ensures SpikeProbability <= d.roll ==> s == 1.0
  {
    if d.roll < SpikeProbability then d.spikeSize else 1.0
  }

  /** The untruncated product of the five factors. */
  function VolumeProduct(base: int, multiplier: real, sineValue: real, d: VolumeDraws): real
  {
    base as real * multiplier * Seasonal(sineValue) * d.noise * SpikeFactor(d)
  }

  /**
   * One day's volume: the product truncated toward zero, so for the
   * non-negative products the generator forms it is the whole part.
   */
  function DailyVolume(base: int, multiplier: real, sineValue: real, d: VolumeDraws): (v: int)
    ensures 0.0 <= VolumeProduct(base, multiplier, sineValue, d) ==>
      v as real <= VolumeProduct(base, multiplier, sineValue, d) < v as real + 1.0
  {
    TruncateTowardZero(VolumeProduct(base, multiplier, sineValue, d))
  }

  /**
   * Every factor is bounded below (base at least 500000, multiplier at
   * least 1, seasonal at least 0.8, noise at least 0.7, spike at least 1),
   * so the product is at least 280000 and so is its whole part.
   */
  lemma DailyVolumeLowerBound(base: int, multiplier: real, sineValue: real, d: VolumeDraws)
    requires 500000 <= base
    requires 1.0 <= multiplier
    requires -1.0 <= sineValue <= 1.0
    requires DrawsInRange(d)
    ensures MinDailyVolume as real <= VolumeProduct(base, multiplier, sineValue, d)
    ensures MinDailyVolume <= DailyVolume(base, multiplier, sineValue, d)
  {
    var b := base as real;
    MulMonotone(b, multiplier, 500000.0, 1.0);
    MulMonotone(b * multiplier, Seasonal(sineValue), 500000.0, 0.8);
    MulMonotone(b * multiplier * Seasonal(sineValue), d.noise, 400000.0, 0.7);
    MulMonotone(b * multiplier * Seasonal(sineValue) * d.noise, SpikeFactor(d), 280000.0, 1.0);
  }

  /**
   * A company's series over the calendar: the base volume drawn once, and
   * row `i` scaled by the seasonal wave at position `i` and that day's draws.
   */
  function Series(company: string, sector: Sector, base: int, sine: real -> real,
                  dates: seq<int>, draws: seq<VolumeDraws>): (rows: seq<VolumeRow>)
    requires |draws| == |dates|
    ensures |rows| == |dates|
    ensures forall i :: 0 <= i < |rows| ==> rows[i].date == dates[i] && rows[i].company == company
    ensures forall i :: 0 <= i < |rows| ==>
      rows[i].volume == DailyVolume(base, VolumeMultiplier(sector), sine(i as real / SeasonPeriod), draws[i])
  {
    seq(|dates|, i requires 0 <= i < |dates| =>
      VolumeRow(dates[i], company,
                DailyVolume(base, VolumeMultiplier(sector), sine(i as real / SeasonPeriod), draws[i])))
  }

  /**
   * Every volume a catalog company reports is a positive integer of at
   * least 280000, whatever its tier, sector and draws.
   */
  lemma SeriesVolumesPositive(company: string, sector: Sector, base: int, sine: real -> real,
                              dates: seq<int>, draws: seq<VolumeDraws>)
    requires |draws| == |dates|
    requires BaseVolumeInRange(company, base)
    requires SineLike(sine)
    requires forall i :: 0 <= i < |draws| ==> DrawsInRange(draws[i])
    ensures forall row :: row in Series(company, sector, base, sine, dates, draws) ==>
      0 < MinDailyVolume <= row.volume
  {
    var rows := Series(company, sector, base, sine, dates, draws);
    forall row | row in rows
      ensures 0 < MinDailyVolume <= row.volume
    {
      var i :| 0 <= i < |rows| && rows[i] == row;
      DailyVolumeLowerBound(base, VolumeMultiplier(sector), sine(i as real / SeasonPeriod), draws[i]);
    }
  }
}
