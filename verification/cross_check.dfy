/**
 * Where the generator meets the front end: every price row the generator
 * emits, entered into the prediction form, passes the form's validation.
 */
module CrossCheck {
  import opened Catalog
  import opened PriceWalk
  import opened Validator

  /** The form a user would fill in from one emitted row. */
  function FormOf(row: PriceRow): (f: PriceForm)
    ensures f.company == row.company
    ensures f.open == row.bar.open && f.high == row.bar.high && f.low == row.bar.low && f.close == row.bar.close
  {
    PriceForm(row.company, row.bar.open, row.bar.high, row.bar.low, row.bar.close)
  }

  /** A well-formed bar under a non-empty company name is accepted. */
  lemma WellFormedBarAccepted(company: string, b: Bar)
    requires company != ""
    requires WellFormedBar(b)
    ensures ValidateInputs(PriceForm(company, b.open, b.high, b.low, b.close)) == Valid
  {
  }

  /** Every row of a catalog price table passes the front end's validation. */
  lemma GeneratedRowsAccepted(market: Market, dates: seq<int>, draws: seq<CompanyDraws>)
    requires DrawsFit(Companies, dates, draws)
    ensures GeneratePrices(market, CompanySector, Companies, dates, draws).Success?
    ensures forall row :: row in GeneratePrices(market, CompanySector, Companies, dates, draws).value ==>
      ValidateInputs(FormOf(row)) == Valid
  {
    CatalogTableGenerated(market, dates, draws);
  }

  /** A rounding that never reorders values. */
  ghost predicate Monotone(round: real -> real)
  {
    forall x, y :: x <= y ==> round(x) <= round(y)
  }

  /**
   * Rounding each price of a well-formed bar with any order-preserving
   * rounding that keeps the floor positive still yields an accepted form:
   * the orderings survive and every price stays at or above the rounded
   * floor.
   */
  lemma RoundedBarAccepted(company: string, b: Bar, round: real -> real)
    requires company != ""
    requires WellFormedBar(b)
    requires Monotone(round)
    requires 0.0 < round(PriceFloor)
    ensures ValidateInputs(PriceForm(company, round(b.open), round(b.high), round(b.low), round(b.close))) == Valid
  {
    assert round(PriceFloor) <= round(b.low);
    assert round(b.low) <= round(b.open) && round(b.low) <= round(b.close);
    assert round(b.open) <= round(b.high) && round(b.close) <= round(b.high);
  }
}
