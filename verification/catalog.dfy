/**
 * The generator's static configuration: the company list, the
 * company-to-sector table, the per-sector parameter tables and the
 * size tiers that pick a company's base trading volume.
 */
module Catalog {

  /** The six industry classifications every company belongs to. */
  datatype Sector = Finance | IT | Energy | Pharma | Metal | Auto

  /** Size classification controlling the base-volume range. */
  datatype SizeTier = Large | Mid | Small

  /** The simulated companies of each sector, in the generator's list order. */
  const FinanceCompanies: seq<string> := [
    "HDFC", "HDFCBANK", "ICICIBANK", "SBIN", "AXISBANK",
    "KOTAKBANK", "INDUSINDBK", "BANKBARODA", "PNB", "CANBK"
  ]
  const EnergyCompanies: seq<string> := [
    "RELIANCE", "ONGC", "IOC", "BPCL", "HPCL",
    "TATAPOWER", "ADANIPOWER", "NTPC", "POWERGRID", "COALINDIA"
  ]
  const ITCompanies: seq<string> := [
    "TCS", "INFY", "WIPRO", "HCLTECH", "TECHM",
    "LTIM", "PERSISTENT", "MPHASIS", "COFORGE", "OFSS"
  ]
  const PharmaCompanies: seq<string> := [
    "SUNPHARMA", "DRREDDY", "CIPLA", "DIVISLAB", "BIOCON",
    "LUPIN", "AUROPHARMA", "TORNTPHARM", "ALKEM", "GLENMARK"
  ]
  const MetalCompanies: seq<string> := ["TATASTEEL", "JSWSTEEL", "HINDALCO", "VEDL", "SAIL"]
  const AutoCompanies: seq<string> := ["MARUTI", "TATAMOTORS", "M&M", "BAJAJ-AUTO", "HEROMOTOCO"]

  /** The simulated companies, in the order every generator visits them. */
  const Companies: seq<string> :=
    FinanceCompanies + EnergyCompanies + ITCompanies + PharmaCompanies + MetalCompanies + AutoCompanies

  /**
   * The company-to-sector dictionary, written entry by entry as the
   * generator's dictionary is (one literal per sector block); a lookup outside it is a
   * configuration error.
   */
  const CompanySector: map<string, Sector> :=
    map[
      "HDFC" := Finance, "HDFCBANK" := Finance, "ICICIBANK" := Finance,
      "SBIN" := Finance, "AXISBANK" := Finance, "KOTAKBANK" := Finance,
      "INDUSINDBK" := Finance, "BANKBARODA" := Finance, "PNB" := Finance,
      "CANBK" := Finance
    ] + map[
      "RELIANCE" := Energy, "ONGC" := Energy, "IOC" := Energy, "BPCL" := Energy,
      "HPCL" := Energy, "TATAPOWER" := Energy, "ADANIPOWER" := Energy,
      "NTPC" := Energy, "POWERGRID" := Energy, "COALINDIA" := Energy
    ] + map[
      "TCS" := IT, "INFY" := IT, "WIPRO" := IT, "HCLTECH" := IT, "TECHM" := IT,
      "LTIM" := IT, "PERSISTENT" := IT, "MPHASIS" := IT, "COFORGE" := IT,
      "OFSS" := IT
    ] + map[
      "SUNPHARMA" := Pharma, "DRREDDY" := Pharma, "CIPLA" := Pharma,
      "DIVISLAB" := Pharma, "BIOCON" := Pharma, "LUPIN" := Pharma,
      "AUROPHARMA" := Pharma, "TORNTPHARM" := Pharma, "ALKEM" := Pharma,
      "GLENMARK" := Pharma
    ] + map[
      "TATASTEEL" := Metal, "JSWSTEEL" := Metal, "HINDALCO" := Metal,
      "VEDL" := Metal, "SAIL" := Metal
    ] + map[
      "MARUTI" := Auto, "TATAMOTORS" := Auto, "M&M" := Auto,
      "BAJAJ-AUTO" := Auto, "HEROMOTOCO" := Auto
    ]

  /** Trading days per year, the divisor turning annual growth into daily drift. */
  const TradingDays: int := 252

  /** Daily price volatility of a sector (standard deviation of a relative shock). */
  function Volatility(s: Sector): (v: real)
    ensures 0.01 <= v <= 0.025
  {
    match s
    case Finance => 0.012
    case IT => 0.015
    case Energy => 0.018
    case Pharma => 0.017
    case Metal => 0.022
    case Auto => 0.016
  }

  /** Annual growth rate of a sector; every sector grows. */
  function AnnualGrowth(s: Sector): (g: real)
    ensures 0.0 < g <= 0.14
  {
    match s
    case Finance => 0.10
    case IT => 0.14
    case Energy => 0.09
    case Pharma => 0.11
    case Metal => 0.08
    case Auto => 0.10
  }

  /** The per-day drift rate: annual growth spread over the trading days. */
  function DailyGrowth(s: Sector): (g: real)
    ensures 0.0 < g
    ensures g * (TradingDays as real) == AnnualGrowth(s)
  {
    AnnualGrowth(s) / (TradingDays as real)
  }

  /** Sector-level sentiment bias. */
  function SectorSentimentBias(s: Sector): (b: real)
    ensures 0.05 <= b <= 0.20
  {
    match s
    case Finance => 0.15
    case IT => 0.20
    case Energy => 0.10
    case Pharma => 0.12
    case Metal => 0.05
    case Auto => 0.08
  }

  /** Company-specific sentiment overrides for the large, favourably viewed names. */
  const CompanySentimentBias: map<string, real> := map[
    "RELIANCE" := 0.25, "TCS" := 0.22, "HDFCBANK" := 0.20,
    "INFY" := 0.18, "ICICIBANK" := 0.19, "SBIN" := 0.17
  ]

  /** Sector multiplier applied to every day's trading volume; never shrinks volume. */
  function VolumeMultiplier(s: Sector): (m: real)
    ensures 1.0 <= m <= 1.5
  {
    match s
    case Finance => 1.5
    case Energy => 1.4
    case IT => 1.2
    case Pharma => 1.1
    case Metal => 1.3
    case Auto => 1.0
  }

  const LargeCaps: seq<string> := ["RELIANCE", "HDFCBANK", "ICICIBANK", "TCS", "INFY", "SBIN"]
  const MidCaps: seq<string> := ["AXISBANK", "KOTAKBANK", "NTPC", "POWERGRID", "HCLTECH", "WIPRO"]

  /** The small caps: every listed company that is neither large nor mid. */
  function SmallCaps(): set<string>
  {
    (set c | c in Companies) - (set c | c in LargeCaps) - (set c | c in MidCaps)
  }

  /** The size tier of a company: large caps first, then mid caps, everything else small. */
  function TierOf(company: string): (t: SizeTier)
    ensures t == Large <==> company in LargeCaps
    ensures t == Mid <==> company !in LargeCaps && company in MidCaps
  {
    if company in LargeCaps then Large
    else if company in MidCaps then Mid
    else Small
  }

  /** Inclusive lower end of a tier's base-volume draw. */
  function BaseVolumeLow(t: SizeTier): (lo: int)
    ensures 500000 <= lo
    ensures lo <= BaseVolumeHigh(t)
  {
    match t
    case Large => 8000000
    case Mid => 3000000
    case Small => 500000
  }

  /** Inclusive upper end of a tier's base-volume draw. */
  function BaseVolumeHigh(t: SizeTier): int
  {
    match t
    case Large => 15000000
    case Mid => 7000000
    case Small => 2500000
  }

  /** A base volume a company can receive from its tier's integer draw. */
  predicate BaseVolumeInRange(company: string, base: int)
  {
    BaseVolumeLow(TierOf(company)) <= base <= BaseVolumeHigh(TierOf(company))
  }

  /** Each sector block of the company list is covered by the sector table. */
  lemma SectorBlocksKeyed()
    ensures forall c :: c in FinanceCompanies ==> c in CompanySector
    ensures forall c :: c in EnergyCompanies ==> c in CompanySector
    ensures forall c :: c in ITCompanies ==> c in CompanySector
    ensures forall c :: c in PharmaCompanies ==> c in CompanySector
    ensures forall c :: c in MetalCompanies ==> c in CompanySector
    ensures forall c :: c in AutoCompanies ==> c in CompanySector
  {
  }

  /** The company list holds fifty names, none of them empty. */
  lemma CompanyNamesNonEmpty()
    ensures |Companies| == 50
    ensures forall c :: c in Companies ==> c != ""
  {
  }

  /**
   * The configuration is complete: every listed company has a sector, so
   * every lookup the generators make succeeds.
   */
  lemma EveryCompanyHasSector()
    ensures forall c :: c in Companies ==> c in CompanySector
  {
    SectorBlocksKeyed();
  }

  /** Within the catalog, the small tier is exactly the complement the generator's `small_caps` set computes. */
  lemma SmallTierIsComplement(company: string)
    requires company in Companies
    ensures TierOf(company) == Small <==> company in SmallCaps()
  {
  }
}
