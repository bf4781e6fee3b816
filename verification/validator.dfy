/**
 * The client-side check of a prediction form (`validateInputs`): an
 * ordered chain of five checks, the first failing one deciding the error
 * message.
 */
module Validator {

  /** The submitted form: the selected company and the four prices. */
  datatype PriceForm = PriceForm(company: string, open: real, high: real, low: real, close: real)

  /** The five errors the validator can throw, in the order it checks for them. */
  datatype Message = NoCompany | NonPositive | HighBelowLow | HighNotHighest | LowNotLowest

  /** The text each error carries, as shown to the user. */
  function Text(m: Message): (t: string)
    ensures t != ""
  {
    match m
    case NoCompany => "Please select a company"
    case NonPositive => "All prices must be greater than 0"
    case HighBelowLow => "High price cannot be less than low price"
    case HighNotHighest => "High price must be the highest value"
    case LowNotLowest => "Low price must be the lowest value"
  }

  /** Different errors carry different texts, so the text shown identifies the failed check. */
  lemma TextsDistinct(m1: Message, m2: Message)
    requires m1 != m2
    ensures Text(m1) != Text(m2)
  {
    assert |Text(NoCompany)| == 23 && |Text(NonPositive)| == 33 && |Text(HighBelowLow)| == 40;
    assert |Text(HighNotHighest)| == 36 && |Text(LowNotLowest)| == 34;
  }

  /** The validator's outcome: accepted, or the error it throws. */
  datatype Verdict = Valid | Invalid(message: Message)

  /** Every price is strictly positive. */
  predicate PricesPositive(f: PriceForm)
  {
    f.open > 0.0 && f.high > 0.0 && f.low > 0.0 && f.close > 0.0
  }

  /** High is at least open and close. */
  predicate HighIsHighest(f: PriceForm)
  {
    f.high >= f.open && f.high >= f.close
  }

  /** Low is at most open and close. */
  predicate LowIsLowest(f: PriceForm)
  {
    f.low <= f.open && f.low <= f.close
  }

  /**
   * What an acceptable form is, stated without the check order: a company
   * is selected, all prices are positive, high tops open and close and low
   * is under both. (High at least low follows and needs no condition.)
   */
  predicate Acceptable(f: PriceForm)
  {
    f.company != "" && PricesPositive(f) && HighIsHighest(f) && LowIsLowest(f)
  }

  /**
   * The ordered chain. It accepts exactly the acceptable forms; an empty
   * company is reported first whatever the prices; each later message is
   * reported only when every earlier check passed; and an accepted form
   * always has high at least low.
   */
  function ValidateInputs(f: PriceForm): (v: Verdict)
    ensures v == Valid <==> Acceptable(f)
    ensures f.company == "" ==> v == Invalid(NoCompany)
    ensures f.company != "" && !PricesPositive(f) ==> v == Invalid(NonPositive)
    ensures f.company != "" && PricesPositive(f) && f.high < f.low ==> v == Invalid(HighBelowLow)
    ensures f.company != "" && PricesPositive(f) && f.high >= f.low && !HighIsHighest(f)
      ==> v == Invalid(HighNotHighest)
    ensures f.company != "" && PricesPositive(f) && f.high >= f.low && HighIsHighest(f) && !LowIsLowest(f)
      ==> v == Invalid(LowNotLowest)
    ensures v == Valid ==> f.high >= f.low
  {
    if f.company == "" then Invalid(NoCompany)
    else if f.open <= 0.0 || f.high <= 0.0 || f.low <= 0.0 || f.close <= 0.0 then Invalid(NonPositive)
    else if f.high < f.low then Invalid(HighBelowLow)
    else if f.high < f.open || f.high < f.close then Invalid(HighNotHighest)
    else if f.low > f.open || f.low > f.close then Invalid(LowNotLowest)
    else Valid
  }

  /** One check of the chain: whether it passes and the message it throws if not. */
  datatype Check = Check(passes: bool, message: Message)

  /** The five checks of a form in the order the validator runs them. */
  function Checks(f: PriceForm): seq<Check>
  {
    [ Check(f.company != "", NoCompany),
      Check(PricesPositive(f), NonPositive),
      Check(f.high >= f.low, HighBelowLow),
      Check(HighIsHighest(f), HighNotHighest),
      Check(LowIsLowest(f), LowNotLowest) ]
  }

  /** The verdict of a list of checks: the message of the first failing one, or valid. */
  function FirstFailure(checks: seq<Check>): (v: Verdict)
    ensures v == Valid <==> forall k :: 0 <= k < |checks| ==> checks[k].passes
    ensures v.Invalid? ==> exists k :: (0 <= k < |checks| && !checks[k].passes && v.message == checks[k].message
      && forall m :: 0 <= m < k ==> checks[m].passes)
  {
    if |checks| == 0 then Valid
    else if !checks[0].passes then Invalid(checks[0].message)
    else
      var v := FirstFailure(checks[1..]);
      assert forall k :: 0 < k < |checks| ==> checks[1..][k - 1] == checks[k];
      v
  }

  /** The validator reports exactly the message of the first failing check, in `validateInputs`'s order. */
  lemma ValidateIsFirstFailure(f: PriceForm)
    ensures ValidateInputs(f) == FirstFailure(Checks(f))
  {
    var cs := Checks(f);
    assert cs[1..] == [cs[1], cs[2], cs[3], cs[4]];
    assert cs[1..][1..] == [cs[2], cs[3], cs[4]];
    assert cs[1..][1..][1..] == [cs[3], cs[4]];
    assert cs[1..][1..][1..][1..] == [cs[4]];
    assert FirstFailure([cs[4]]) == (if cs[4].passes then Valid else Invalid(cs[4].message));
  }
}
