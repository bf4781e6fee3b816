/**
 * The daily news-sentiment series: a fixed per-company bias plus a slow
 * cycle, uniform noise and a rare news spike, clamped into [-1, 1]. No
 * state is carried between days.
 */
module Sentiment {
  import opened RealOps
  import opened Catalog

  const SentimentLow: real := -1.0
  const SentimentHigh: real := 1.0

  /** Probability that a day carries a news spike. */
  const SpikeProbability: real := 0.04

  /** Days per cycle unit: the cycle term is `0.15 * sin(i / 250)`. */
  const CyclePeriod: real := 250.0
  const CycleAmplitude: real := 0.15

  /**
   * One day's draws: the uniform noise, the uniform roll deciding whether a
   * spike happens, and the spike size used when it does.
   */
  datatype SentimentDraws = SentimentDraws(noise: real, roll: real, spikeSize: real)

  /** The stated ranges of the three draws. */
  predicate DrawsInRange(d: SentimentDraws)
  {
    -0.15 <= d.noise <= 0.15 && 0.0 <= d.roll < 1.0 && -0.4 <= d.spikeSize <= 0.6
  }

  /** One emitted row. */
  datatype SentimentRow = SentimentRow(date: int, company: string, score: real)

  /**
   * The company part of the bias: the company's override when it has one,
   * otherwise the fallback drawn from [0.02, 0.10].
   */
  function CompanyBias(company: string, fallback: real): (b: real)
    ensures company in CompanySentimentBias ==> b == CompanySentimentBias[company]
    ensures company !in CompanySentimentBias ==> b == fallback
  {
    if company in CompanySentimentBias then CompanySentimentBias[company] else fallback
  }

  /** The fixed bias of a company: its sector's bias plus its company bias. */
  function BaseBias(company: string, sector: Sector, fallback: real): real
  {
    SectorSentimentBias(sector) + CompanyBias(company, fallback)
  }

  /** The spike of a day: the drawn size when the roll falls under the spike probability, else none. */
  function Spike(d: SentimentDraws): (s: real)
    ensures d.roll < SpikeProbability ==> s == d.spikeSize
    ensures SpikeProbability <= d.roll ==> s == 0.0
  {
    if d.roll < SpikeProbability then d.spikeSize else 0.0
  }

  /** The unclamped score of a day, given the value of the sine at that day. */
  function RawScore(baseBias: real, sineValue: real, d: SentimentDraws): real
  {
    baseBias + CycleAmplitude * sineValue + d.noise + Spike(d)
  }

  /**
   * One day's score: the raw sum clamped into [-1, 1]. Whatever the bias,
   * cycle, noise or spike, the score is in range; an in-range sum is left
   * unchanged and an out-of-range one is pinned to the nearer end.
   */
  function Score(baseBias: real, sineValue: real, d: SentimentDraws): (s: real)
    ensures SentimentLow <= s <= SentimentHigh
    ensures SentimentLow <= RawScore(baseBias, sineValue, d) <= SentimentHigh ==> s == RawScore(baseBias, sineValue, d)
    ensures RawScore(baseBias, sineValue, d) > SentimentHigh ==> s == SentimentHigh
    ensures RawScore(baseBias, sineValue, d) < SentimentLow ==> s == SentimentLow
  {
    Clamp(RawScore(baseBias, sineValue, d), SentimentLow, SentimentHigh)
  }

  /**
   * A company's series over the calendar. Row `i` depends only on the
   * fixed bias, the position `i` and that day's draws.
   */
  function Series(company: string, sector: Sector, fallback: real, sine: real -> real,
                  dates: seq<int>, draws: seq<SentimentDraws>): (rows: seq<SentimentRow>)
    requires |draws| == |dates|
    ensures |rows| == |dates|
    ensures forall i :: 0 <= i < |rows| ==> rows[i].date == dates[i] && rows[i].company == company
    ensures forall i :: 0 <= i < |rows| ==> SentimentLow <= rows[i].score <= SentimentHigh
    ensures forall i :: 0 <= i < |rows| ==>
      rows[i].score == Score(BaseBias(company, sector, fallback), sine(i as real / CyclePeriod), draws[i])
  {
    var bias := BaseBias(company, sector, fallback);
    seq(|dates|, i requires 0 <= i < |dates| =>
      SentimentRow(dates[i], company, Score(bias, sine(i as real / CyclePeriod), draws[i])))
  }

  /**
   * No carry-over between days: two series of the same company agree on
   * day `i` whenever that day's draws agree, whatever the other days drew.
   */
  lemma NoCarryOver(company: string, sector: Sector, fallback: real, sine: real -> real,
                    dates: seq<int>, draws1: seq<SentimentDraws>, draws2: seq<SentimentDraws>, i: nat)
    requires |draws1| == |dates| && |draws2| == |dates|
    requires i < |dates| && draws1[i] == draws2[i]
    ensures Series(company, sector, fallback, sine, dates, draws1)[i]
         == Series(company, sector, fallback, sine, dates, draws2)[i]
  {
  }

  /**
   * The fixed bias of any company lies in [0.07, 0.45]: the sector bias is
   * in [0.05, 0.20], and the company bias is an override in [0.17, 0.25] or
   * a fallback drawn from [0.02, 0.10].
   */
  lemma BaseBiasBounds(company: string, sector: Sector, fallback: real)
    requires 0.02 <= fallback <= 0.10
    ensures 0.07 <= BaseBias(company, sector, fallback) <= 0.45
  {
    if company in CompanySentimentBias {
      assert 0.17 <= CompanySentimentBias[company] <= 0.25;
    }
  }

  /**
   * The clamp only ever bites on spike days: with in-range draws and no
   * spike, the raw score already lies in [-0.23, 0.75], so the emitted
   * score is the raw sum.
   */
  lemma ClampOnlyBitesOnSpikeDays(company: string, sector: Sector, fallback: real, sineValue: real,
                                  d: SentimentDraws)
    requires 0.02 <= fallback <= 0.10
    requires -1.0 <= sineValue <= 1.0
    requires DrawsInRange(d) && SpikeProbability <= d.roll
    ensures var raw := RawScore(BaseBias(company, sector, fallback), sineValue, d);
      -0.23 <= raw <= 0.75 && Score(BaseBias(company, sector, fallback), sineValue, d) == raw
  {
    BaseBiasBounds(company, sector, fallback);
  }
}
