/**
 * The per-company price walk of the synthetic market generator: one
 * day's open/high/low/close built from the carried price and four draws,
 * clamped in a fixed order, and the close plus drift carried forward;
 * then the walk folded over the calendar and over the company list.
 */
module PriceWalk {
  import opened RealOps
  import opened Outcomes
  import opened Catalog
  import opened Blocks

  /** The floor below which no emitted price may fall. */
  const PriceFloor: real := 5.0

  /** Both markets are simulated independently with the same recurrence. */
  datatype Market = NSE | BSE

  /**
   * The four draws one day consumes: two standard-normal shocks (scaled by
   * the sector volatility, so `volatility * openShock` is the generator's
   * `normal(0, volatility)`), and the two uniform factors for high and low.
   */
  datatype PriceDraws = PriceDraws(openShock: real, closeShock: real, highFactor: real, lowFactor: real)

  /** The stated ranges of the two uniform factors. */
  predicate FactorsInRange(d: PriceDraws)
  {
    1.001 <= d.highFactor <= 1.02 && 0.98 <= d.lowFactor <= 0.999
  }

  /** One day's prices. */
  datatype Bar = Bar(open: real, high: real, low: real, close: real)

  /** The shape every emitted bar has: floored, high on top, low between the floor and the body. */
  predicate WellFormedBar(b: Bar)
  {
    && b.open >= PriceFloor
    && b.close >= PriceFloor
    && b.high >= b.open
    && b.high >= b.close
    && PriceFloor <= b.low <= Min(b.open, b.close)
  }

  /** One emitted row of a price table. */
  datatype PriceRow = PriceRow(date: int, market: Market, company: string, bar: Bar)

  /** A day's bar together with the price carried into the next day. */
  datatype Step = Step(bar: Bar, next: real)

  /** The unclamped open: the carried price plus a relative shock. */
  function RawOpen(price: real, volatility: real, d: PriceDraws): real
  {
    price + price * (volatility * d.openShock)
  }

  /** The unclamped close: the raw open plus a second, independent shock. */
  function RawClose(price: real, volatility: real, d: PriceDraws): real
  {
    RawOpen(price, volatility, d) + price * (volatility * d.closeShock)
  }

  /** The unclamped high: the larger of raw open and close scaled up by the high factor. */
  function RawHigh(rawOpen: real, rawClose: real, highFactor: real): real
  {
    Max(rawOpen, rawClose) * highFactor
  }

  /** The unclamped low: the smaller of raw open and close scaled down by the low factor. */
  function RawLow(rawOpen: real, rawClose: real, lowFactor: real): real
  {
    Min(rawOpen, rawClose) * lowFactor
  }

  /**
   * The clamp sequence in its fixed order: open and close floored first,
   * high raised to dominate the already floored open and close, low capped
   * by both and then floored. Each field is its raw value unless its own
   * clamp binds, and whatever the inputs, the bar is well formed.
   */
  function ClampBar(rawOpen: real, rawClose: real, rawHigh: real, rawLow: real): (b: Bar)
    ensures rawOpen >= PriceFloor ==> b.open == rawOpen
    ensures rawOpen < PriceFloor ==> b.open == PriceFloor
    ensures rawClose >= PriceFloor ==> b.close == rawClose
    ensures rawClose < PriceFloor ==> b.close == PriceFloor
    ensures rawHigh >= Max(b.open, b.close) ==> b.high == rawHigh
    ensures rawHigh < Max(b.open, b.close) ==> b.high == Max(b.open, b.close)
    ensures Min(rawLow, Min(b.open, b.close)) >= PriceFloor ==> b.low == Min(rawLow, Min(b.open, b.close))
    ensures Min(rawLow, Min(b.open, b.close)) < PriceFloor ==> b.low == PriceFloor
    ensures b.open >= PriceFloor && b.close >= PriceFloor
    ensures b.high >= b.open && b.high >= b.close
    ensures PriceFloor <= b.low <= Min(b.open, b.close)
    ensures b.low <= b.high
    ensures WellFormedBar(b)
  {
    var open := Max(rawOpen, PriceFloor);
    var close := Max(rawClose, PriceFloor);
    var high := Max(Max(rawHigh, open), close);
    var low := Max(Min(Min(rawLow, open), close), PriceFloor);
    Bar(open, high, low, close)
  }

  /**
   * When neither raw price is under the floor and the raw high lies above
   * both, the clamps change nothing the draws produced: open, close and
   * high are the raw values, and low, unless the floor binds, is the raw
   * low too.
   */
  lemma UnclampedBarIsExact(rawOpen: real, rawClose: real, rawHigh: real, rawLow: real)
    requires rawOpen >= PriceFloor && rawClose >= PriceFloor
    requires rawHigh > Max(rawOpen, rawClose)
    requires rawLow < Min(rawOpen, rawClose)
    ensures var b := ClampBar(rawOpen, rawClose, rawHigh, rawLow);
      && b.open == rawOpen
      && b.close == rawClose
      && b.high == rawHigh
      && b.high > b.open && b.high > b.close
      && (rawLow >= PriceFloor ==> b.low == rawLow && b.low < b.open && b.low < b.close)
      && (rawLow < PriceFloor ==> b.low == PriceFloor)
  {
    assert Max(rawOpen, PriceFloor) == rawOpen && Max(rawClose, PriceFloor) == rawClose;
  }

  /**
   * On a day where the raw open or the raw close falls under the floor,
   * that price is emitted as the floor and so is the low, whatever the raw
   * low was; the other price and the high are kept when the floor does not
   * touch them.
   */
  lemma FloorDayClamp(rawOpen: real, rawClose: real, rawHigh: real, rawLow: real)
    requires rawOpen < PriceFloor || rawClose < PriceFloor
    ensures var b := ClampBar(rawOpen, rawClose, rawHigh, rawLow);
      && b.low == PriceFloor
      && Min(b.open, b.close) == PriceFloor
      && (rawOpen >= PriceFloor ==> b.open == rawOpen && b.close == PriceFloor)
      && (rawClose >= PriceFloor ==> b.close == rawClose && b.open == PriceFloor)
      && (rawHigh >= Max(rawOpen, rawClose) && rawHigh >= PriceFloor ==> b.high == rawHigh)
  {
  }

  /** The high and low factors put the raw high strictly above, and the raw low strictly below, a positive body. */
  lemma FactorsWidenBody(rawOpen: real, rawClose: real, d: PriceDraws)
    requires FactorsInRange(d)
    requires 0.0 < rawOpen && 0.0 < rawClose
    ensures RawHigh(rawOpen, rawClose, d.highFactor) > Max(rawOpen, rawClose)
    ensures RawLow(rawOpen, rawClose, d.lowFactor) < Min(rawOpen, rawClose)
  {
    ScaledUp(Max(rawOpen, rawClose), d.highFactor);
    ScaledDown(Min(rawOpen, rawClose), d.lowFactor);
  }

  /** A positive value scaled by a factor above one grows. */
  lemma ScaledUp(x: real, f: real)
    requires 0.0 < x && 1.0 < f
    ensures x < x * f
  {
    assert x * f - x == x * (f - 1.0);
  }

  /** A positive value scaled by a factor below one shrinks. */
  lemma ScaledDown(x: real, f: real)
    requires 0.0 < x && f < 1.0
    ensures x * f < x
  {
    assert x - x * f == x * (1.0 - f);
  }

  /**
   * One day of the walk: the raw open and close from the carried price and
   * the two shocks, clamped into a well-formed bar; the next day starts
   * from the clamped close plus a drift computed from the price this day
   * started at, so a carried positive price with positive growth ends up
   * strictly above the floor.
   */
  function PriceStep(price: real, volatility: real, dailyGrowth: real, d: PriceDraws): (s: Step)
    ensures WellFormedBar(s.bar)
    ensures s.bar.open == Max(RawOpen(price, volatility, d), PriceFloor)
    ensures s.bar.close == Max(RawClose(price, volatility, d), PriceFloor)
    ensures s.next == Max(RawClose(price, volatility, d), PriceFloor) + price * dailyGrowth
    ensures s.next == s.bar.close + price * dailyGrowth
    ensures 0.0 < price && 0.0 < dailyGrowth ==> PriceFloor < s.next
  {
    var drift := price * dailyGrowth;
    var open := RawOpen(price, volatility, d);
    var close := RawClose(price, volatility, d);
    var bar := ClampBar(open, close, RawHigh(open, close, d.highFactor), RawLow(open, close, d.lowFactor));
    Step(bar, bar.close + drift)
  }

  /**
   * The step on a day where neither raw price is under the floor keeps the
   * raw open and close and puts high strictly above both.
   */
  lemma UnclampedStepIsExact(price: real, volatility: real, dailyGrowth: real, d: PriceDraws)
    requires FactorsInRange(d)
    requires RawOpen(price, volatility, d) >= PriceFloor
    requires RawClose(price, volatility, d) >= PriceFloor
    ensures var b := PriceStep(price, volatility, dailyGrowth, d).bar;
      && b.open == RawOpen(price, volatility, d)
      && b.close == RawClose(price, volatility, d)
      && b.high == Max(b.open, b.close) * d.highFactor
      && b.high > Max(b.open, b.close)
      && (Min(b.open, b.close) * d.lowFactor >= PriceFloor ==> b.low == Min(b.open, b.close) * d.lowFactor)
  {
    var open := RawOpen(price, volatility, d);
    var close := RawClose(price, volatility, d);
    FactorsWidenBody(open, close, d);
    UnclampedBarIsExact(open, close, RawHigh(open, close, d.highFactor), RawLow(open, close, d.lowFactor));
  }

  /**
   * The walk for one (market, company) pair: one row per date, in date
   * order, each a step from the price carried out of the previous day.
   */
  function Walk(market: Market, company: string, price: real, volatility: real, dailyGrowth: real,
                dates: seq<int>, draws: seq<PriceDraws>): (rows: seq<PriceRow>)
    requires |draws| == |dates|
    ensures |rows| == |dates|
    ensures forall i :: 0 <= i < |rows| ==>
      rows[i].date == dates[i] && rows[i].market == market && rows[i].company == company
    ensures forall i :: 0 <= i < |rows| ==> WellFormedBar(rows[i].bar)
    decreases |dates|
  {
    if |dates| == 0 then []
    else
      var s := PriceStep(price, volatility, dailyGrowth, draws[0]);
      [PriceRow(dates[0], market, company, s.bar)]
        + Walk(market, company, s.next, volatility, dailyGrowth, dates[1..], draws[1..])
  }

  /** The price the walk carries into day `k` (day 0 starts from the initial price). */
  function CarriedPrice(price: real, volatility: real, dailyGrowth: real, draws: seq<PriceDraws>, k: nat): real
    requires k <= |draws|
    decreases k
  {
    if k == 0 then price
    else CarriedPrice(PriceStep(price, volatility, dailyGrowth, draws[0]).next, volatility, dailyGrowth, draws[1..], k - 1)
  }

  /** Day `k`'s row is exactly one step from the price carried into day `k`. */
  lemma {:induction false} WalkFollowsCarriedPrice(market: Market, company: string, price: real, volatility: real,
                                                    dailyGrowth: real, dates: seq<int>, draws: seq<PriceDraws>, k: nat)
    requires |draws| == |dates|
    requires k < |dates|
    ensures Walk(market, company, price, volatility, dailyGrowth, dates, draws)[k].bar
         == PriceStep(CarriedPrice(price, volatility, dailyGrowth, draws, k), volatility, dailyGrowth, draws[k]).bar
    decreases k
  {
    if k > 0 {
      var s := PriceStep(price, volatility, dailyGrowth, draws[0]);
      WalkFollowsCarriedPrice(market, company, s.next, volatility, dailyGrowth, dates[1..], draws[1..], k - 1);
      assert draws[1..][k - 1] == draws[k];
    }
  }

  /** Consecutive carried prices: the next one is the clamped close plus the drift of the current one. */
  lemma {:induction false} CarriedPriceRecurrence(price: real, volatility: real, dailyGrowth: real,
                                                  draws: seq<PriceDraws>, k: nat)
    requires k < |draws|
    ensures var p := CarriedPrice(price, volatility, dailyGrowth, draws, k);
      CarriedPrice(price, volatility, dailyGrowth, draws, k + 1)
        == PriceStep(p, volatility, dailyGrowth, draws[k]).bar.close + p * dailyGrowth
    decreases k
  {
    if k > 0 {
      var s := PriceStep(price, volatility, dailyGrowth, draws[0]);
      CarriedPriceRecurrence(s.next, volatility, dailyGrowth, draws[1..], k - 1);
      assert draws[1..][k - 1] == draws[k];
    }
  }

  /** With positive growth, any positive starting price is carried strictly above the floor from day 1 on. */
  lemma {:induction false} CarriedPriceAboveFloor(price: real, volatility: real, dailyGrowth: real,
                                                  draws: seq<PriceDraws>, k: nat)
    requires 0.0 < price
    requires 0.0 < dailyGrowth
    requires k <= |draws|
    ensures 0.0 < CarriedPrice(price, volatility, dailyGrowth, draws, k)
    ensures 0 < k ==> PriceFloor < CarriedPrice(price, volatility, dailyGrowth, draws, k)
    decreases k
  {
    if k > 0 {
      var s := PriceStep(price, volatility, dailyGrowth, draws[0]);
      assert price * dailyGrowth > 0.0;
      assert PriceFloor < s.next;
      CarriedPriceAboveFloor(s.next, volatility, dailyGrowth, draws[1..], k - 1);
    }
  }

  /** The stated range of the initial price draw. */
  predicate StartPriceInRange(price: real)
  {
    100.0 <= price <= 2500.0
  }

  /**
   * For any company in the catalog and any draws, a walk started from the
   * initial price range carries a price strictly above the floor into
   * every day.
   */
  lemma CarriedPriceAlwaysAboveFloor(sector: Sector, price: real, draws: seq<PriceDraws>, k: nat)
    requires StartPriceInRange(price)
    requires k <= |draws|
    ensures PriceFloor < CarriedPrice(price, Volatility(sector), DailyGrowth(sector), draws, k)
  {
    CarriedPriceAboveFloor(price, Volatility(sector), DailyGrowth(sector), draws, k);
  }

  /** The draws one company consumes in one market: its initial price, then four per date. */
  datatype CompanyDraws = CompanyDraws(startPrice: real, days: seq<PriceDraws>)

  /** The fatal configuration error: a listed company with no sector entry. */
  datatype ConfigError = MissingSector(company: string)

  /** Draws shaped like the calendar: one set per company, one per date within it. */
  predicate DrawsFit(companies: seq<string>, dates: seq<int>, draws: seq<CompanyDraws>)
  {
    |draws| == |companies| && forall i :: 0 <= i < |draws| ==> |draws[i].days| == |dates|
  }

  /** One company's walk with its sector's volatility and daily growth. */
  function CompanyWalk(market: Market, sectors: map<string, Sector>, company: string, dates: seq<int>,
                       draws: CompanyDraws): (rows: seq<PriceRow>)
    requires company in sectors
    requires |draws.days| == |dates|
  {
    var sector := sectors[company];
    Walk(market, company, draws.startPrice, Volatility(sector), DailyGrowth(sector), dates, draws.days)
  }

  /** `companies[i]` is the first listed company without a sector entry. */
  predicate FirstMissingAt(sectors: map<string, Sector>, companies: seq<string>, i: int)
  {
    && 0 <= i < |companies|
    && companies[i] !in sectors
    && forall j :: 0 <= j < i ==> companies[j] in sectors
  }

  /** Every company of the list has a sector entry. */
  predicate AllHaveSector(sectors: map<string, Sector>, companies: seq<string>)
  {
    forall c :: c in companies ==> c in sectors
  }

  /** Dropping the head of a list whose every company has a sector keeps that true. */
  lemma AllHaveSectorTail(sectors: map<string, Sector>, companies: seq<string>)
    requires 0 < |companies| && AllHaveSector(sectors, companies)
    ensures companies[0] in sectors && AllHaveSector(sectors, companies[1..])
  {
    assert companies[0] in companies;
    forall x | x in companies[1..] ensures x in sectors {
      assert x in companies;
    }
  }

  /** A missing entry found past the head is the first missing one of the whole list. */
  lemma FirstMissingShifts(sectors: map<string, Sector>, companies: seq<string>, i: int)
    requires 0 < |companies| && companies[0] in sectors
    requires FirstMissingAt(sectors, companies[1..], i)
    ensures FirstMissingAt(sectors, companies, i + 1)
  {
    assert companies[1..][i] == companies[i + 1];
  }

  /**
   * The company on which the per-company loop stops: the first listed
   * company whose sector lookup fails, if any.
   */
  function FindMissing(sectors: map<string, Sector>, companies: seq<string>): (r: Option<nat>)
    ensures r.None? <==> AllHaveSector(sectors, companies)
    ensures r.Some? ==> FirstMissingAt(sectors, companies, r.value)
    decreases |companies|
  {
    if |companies| == 0 then None
    else if companies[0] !in sectors then
      assert FirstMissingAt(sectors, companies, 0);
      Some(0)
    else
      match FindMissing(sectors, companies[1..])
      case None =>
        assert AllHaveSector(sectors, companies) by {
          assert forall c :: c in companies ==> c == companies[0] || c in companies[1..];
        }
        None
      case Some(i) =>
        FirstMissingShifts(sectors, companies, i);
        assert companies[1..][i] in companies;
        Some(i + 1)
  }

  /** Each company's walk, in list order, for a list whose every company has a sector. */
  function Walks(market: Market, sectors: map<string, Sector>, companies: seq<string>, dates: seq<int>,
                 draws: seq<CompanyDraws>): (walks: seq<seq<PriceRow>>)
    requires DrawsFit(companies, dates, draws)
    requires AllHaveSector(sectors, companies)
    ensures |walks| == |companies|
    ensures forall i :: 0 <= i < |walks| ==> |walks[i]| == |dates|
    decreases |companies|
  {
    if |companies| == 0 then []
    else
      AllHaveSectorTail(sectors, companies);
      [CompanyWalk(market, sectors, companies[0], dates, draws[0])] + Walks(market, sectors, companies[1..], dates, draws[1..])
  }

  /**
   * The price table of one market: the companies' walks concatenated in
   * list order. A company without a sector aborts the whole table with the
   * first such company, as the dictionary lookup inside the loop does; the
   * rows built before it are discarded with the table.
   */
  function GeneratePrices(market: Market, sectors: map<string, Sector>, companies: seq<string>, dates: seq<int>,
                          draws: seq<CompanyDraws>)
    : (r: Result<seq<PriceRow>, ConfigError>)
    requires DrawsFit(companies, dates, draws)
    ensures r.Success? <==> AllHaveSector(sectors, companies)
    ensures r.Failure? ==> exists i :: FirstMissingAt(sectors, companies, i) && r.error == MissingSector(companies[i])
    ensures r.Success? ==> |r.value| == BlockStart(|companies|, |dates|)
  {
    match FindMissing(sectors, companies)
    case Some(i) => Failure(MissingSector(companies[i]))
    case None =>
      var walks := Walks(market, sectors, companies, dates, draws);
      FlattenLength(walks, |dates|);
      Success(Flatten(walks))
  }

  /** Every row of a generated table belongs to the market, a listed company and a calendar date, and is well formed. */
  lemma GeneratedRowsWellFormed(market: Market, sectors: map<string, Sector>, companies: seq<string>, dates: seq<int>,
                                draws: seq<CompanyDraws>)
    requires DrawsFit(companies, dates, draws)
    requires GeneratePrices(market, sectors, companies, dates, draws).Success?
    ensures forall row :: row in GeneratePrices(market, sectors, companies, dates, draws).value ==>
      row.market == market && row.company in companies && row.date in dates && WellFormedBar(row.bar)
  {
    var walks := Walks(market, sectors, companies, dates, draws);
    assert GeneratePrices(market, sectors, companies, dates, draws).value == Flatten(walks);
    forall row: PriceRow | row in Flatten(walks)
      ensures row.market == market && row.company in companies && row.date in dates && WellFormedBar(row.bar)
    {
      InFlatten(walks, row);
      var c :| 0 <= c < |walks| && row in walks[c];
      WalksAt(market, sectors, companies, dates, draws, c);
      var walk := CompanyWalk(market, sectors, companies[c], dates, draws[c]);
      var d :| 0 <= d < |walk| && walk[d] == row;
      assert row.date == dates[d];
    }
  }

  /**
   * The table is grouped by company in list order: the `c`-th block of
   * `|dates|` rows is exactly company `c`'s walk over the whole calendar.
   */
  lemma RowsGroupedByCompany(market: Market, sectors: map<string, Sector>, companies: seq<string>, dates: seq<int>,
                             draws: seq<CompanyDraws>, c: nat)
    requires DrawsFit(companies, dates, draws)
    requires GeneratePrices(market, sectors, companies, dates, draws).Success?
    requires c < |companies|
    ensures companies[c] in sectors
    ensures BlockStart(c, |dates|) + |dates| <= |GeneratePrices(market, sectors, companies, dates, draws).value|
    ensures GeneratePrices(market, sectors, companies, dates, draws).value[BlockStart(c, |dates|) .. BlockStart(c, |dates|) + |dates|]
         == CompanyWalk(market, sectors, companies[c], dates, draws[c])
  {
    TableIsFlattenedWalks(market, sectors, companies, dates, draws);
    WalkBlock(market, sectors, companies, dates, draws, c);
  }

  /** A generated table is the companies' walks laid end to end. */
  lemma TableIsFlattenedWalks(market: Market, sectors: map<string, Sector>, companies: seq<string>, dates: seq<int>,
                              draws: seq<CompanyDraws>)
    requires DrawsFit(companies, dates, draws)
    requires GeneratePrices(market, sectors, companies, dates, draws).Success?
    ensures AllHaveSector(sectors, companies)
    ensures GeneratePrices(market, sectors, companies, dates, draws).value == Flatten(Walks(market, sectors, companies, dates, draws))
  {
  }

  /** Block `c` of the laid-out walks is company `c`'s walk. */
  lemma WalkBlock(market: Market, sectors: map<string, Sector>, companies: seq<string>, dates: seq<int>,
                  draws: seq<CompanyDraws>, c: nat)
    requires DrawsFit(companies, dates, draws)
    requires AllHaveSector(sectors, companies)
    requires c < |companies|
    ensures companies[c] in sectors
    ensures BlockStart(c, |dates|) + |dates| <= |Flatten(Walks(market, sectors, companies, dates, draws))|
    ensures Flatten(Walks(market, sectors, companies, dates, draws))[BlockStart(c, |dates|) .. BlockStart(c, |dates|) + |dates|]
         == CompanyWalk(market, sectors, companies[c], dates, draws[c])
  {
    WalksAt(market, sectors, companies, dates, draws, c);
    FlattenBlock(Walks(market, sectors, companies, dates, draws), |dates|, c,
                 CompanyWalk(market, sectors, companies[c], dates, draws[c]));
  }

  /** Entry `c` of the walks is company `c`'s walk. */
  lemma {:induction false} WalksAt(market: Market, sectors: map<string, Sector>, companies: seq<string>, dates: seq<int>,
                                   draws: seq<CompanyDraws>, c: nat)
    requires DrawsFit(companies, dates, draws)
    requires AllHaveSector(sectors, companies)
    requires c < |companies|
    ensures companies[c] in sectors
    ensures Walks(market, sectors, companies, dates, draws)[c] == CompanyWalk(market, sectors, companies[c], dates, draws[c])
    decreases c
  {
    assert companies[c] in companies;
    if c > 0 {
      AllHaveSectorTail(sectors, companies);
      WalksAt(market, sectors, companies[1..], dates, draws[1..], c - 1);
      assert companies[1..][c - 1] == companies[c];
      assert draws[1..][c - 1] == draws[c];
    }
  }

  /** The table holds one row per (company, date) pair. */
  lemma TableSize(market: Market, sectors: map<string, Sector>, companies: seq<string>, dates: seq<int>, draws: seq<CompanyDraws>)
    requires DrawsFit(companies, dates, draws)
    requires GeneratePrices(market, sectors, companies, dates, draws).Success?
    ensures |GeneratePrices(market, sectors, companies, dates, draws).value| == |companies| * |dates|
  {
    BlockStartIsProduct(|companies|, |dates|);
  }

  /** Dates strictly increase along the calendar. */
  predicate StrictlyIncreasing(dates: seq<int>)
  {
    forall i, j :: 0 <= i < j < |dates| ==> dates[i] < dates[j]
  }

  /**
   * Row `c * |dates| + d` of the table is company `c` on date `d`, carrying
   * the bar one step from the price carried into that day; and within one
   * company's block, rows follow the calendar's order.
   */
  lemma TableRowAt(market: Market, sectors: map<string, Sector>, companies: seq<string>, dates: seq<int>, draws: seq<CompanyDraws>,
                   c: nat, d: nat)
    requires DrawsFit(companies, dates, draws)
    requires GeneratePrices(market, sectors, companies, dates, draws).Success?
    requires c < |companies| && d < |dates|
    ensures companies[c] in sectors
    ensures c * |dates| + d < |GeneratePrices(market, sectors, companies, dates, draws).value|
    ensures var row := GeneratePrices(market, sectors, companies, dates, draws).value[c * |dates| + d];
      var sector := sectors[companies[c]];
      && row.market == market
      && row.company == companies[c]
      && row.date == dates[d]
      && row.bar == PriceStep(CarriedPrice(draws[c].startPrice, Volatility(sector), DailyGrowth(sector), draws[c].days, d),
                              Volatility(sector), DailyGrowth(sector), draws[c].days[d]).bar
  {
    TableIsFlattenedWalks(market, sectors, companies, dates, draws);
    RowIsWalkRow(market, sectors, companies, dates, draws, c, d);
    BlockStartIsProduct(c, |dates|);
    var sector := sectors[companies[c]];
    WalkFollowsCarriedPrice(market, companies[c], draws[c].startPrice, Volatility(sector), DailyGrowth(sector),
                            dates, draws[c].days, d);
  }

  /** Row `d` of block `c` of the laid-out walks is row `d` of company `c`'s walk. */
  lemma RowIsWalkRow(market: Market, sectors: map<string, Sector>, companies: seq<string>, dates: seq<int>,
                     draws: seq<CompanyDraws>, c: nat, d: nat)
    requires DrawsFit(companies, dates, draws)
    requires AllHaveSector(sectors, companies)
    requires c < |companies| && d < |dates|
    ensures companies[c] in sectors
    ensures BlockStart(c, |dates|) + d < |Flatten(Walks(market, sectors, companies, dates, draws))|
    ensures Flatten(Walks(market, sectors, companies, dates, draws))[BlockStart(c, |dates|) + d]
         == CompanyWalk(market, sectors, companies[c], dates, draws[c])[d]
  {
    WalkBlock(market, sectors, companies, dates, draws, c);
    SliceAt(Flatten(Walks(market, sectors, companies, dates, draws)), BlockStart(c, |dates|), |dates|,
            CompanyWalk(market, sectors, companies[c], dates, draws[c]), d);
  }

  /** Within one company's block, rows follow the calendar's order. */
  lemma CompanyRowsInDateOrder(market: Market, sectors: map<string, Sector>, companies: seq<string>,
                               dates: seq<int>, draws: seq<CompanyDraws>, c: nat, d1: nat, d2: nat)
    requires DrawsFit(companies, dates, draws)
    requires GeneratePrices(market, sectors, companies, dates, draws).Success?
    requires StrictlyIncreasing(dates)
    requires c < |companies| && d1 < d2 < |dates|
    ensures c * |dates| + d2 < |GeneratePrices(market, sectors, companies, dates, draws).value|
    ensures var table := GeneratePrices(market, sectors, companies, dates, draws).value;
      table[c * |dates| + d1].company == table[c * |dates| + d2].company == companies[c]
      && table[c * |dates| + d1].date < table[c * |dates| + d2].date
  {
    TableRowAt(market, sectors, companies, dates, draws, c, d1);
    TableRowAt(market, sectors, companies, dates, draws, c, d2);
  }

  /**
   * For the catalog's companies the table always exists, holds one row per
   * (company, date) and every row is well formed.
   */
  lemma CatalogTableGenerated(market: Market, dates: seq<int>, draws: seq<CompanyDraws>)
    requires DrawsFit(Companies, dates, draws)
    ensures GeneratePrices(market, CompanySector, Companies, dates, draws).Success?
    ensures |GeneratePrices(market, CompanySector, Companies, dates, draws).value| == 50 * |dates|
    ensures forall row :: row in GeneratePrices(market, CompanySector, Companies, dates, draws).value ==>
      row.company in Companies && row.company != "" && WellFormedBar(row.bar)
  {
    EveryCompanyHasSector();
    CompanyNamesNonEmpty();
    TableSize(market, CompanySector, Companies, dates, draws);
    GeneratedRowsWellFormed(market, CompanySector, Companies, dates, draws);
  }
}
