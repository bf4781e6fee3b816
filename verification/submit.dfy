/**
 * The submit handler of the prediction form (`handleSubmit`) as the trace
 * of user-interface effects it produces, and the display state that trace
 * leaves behind. The backend's answer is a parameter; `makePrediction`
 * collapses every failure into one message, and hands back whatever JSON
 * an ok response carries without looking at its shape.
 */
module Submit {
  import opened Outcomes
  import opened JsText
  import opened Validator

  /** The raw form fields, prices already parsed to numbers. */
  datatype RawForm = RawForm(company: string, open: real, high: real, low: real, close: real)

  /**
   * A parsed JSON body, seen through the two fields the page reads:
   * `null`, or any other value with its `prediction` and `trend` fields
   * (`None` where the field is absent, as in the backend's
   * `{"error": ...}` answers).
   */
  datatype Json = JsonNull | Value(prediction: Option<real>, trend: Option<string>)

  /**
   * What the request came back with: no connection at all, or a response
   * with its `ok` flag and its body if that parses as JSON.
   */
  datatype Reply = NoConnection | Response(ok: bool, body: Option<Json>)

  /**
   * The result card: the current price, the predicted price (`None` is
   * rendered as a NaN amount) and whether the trend reads upward.
   */
  datatype Card = Card(current: real, predicted: Option<real>, upward: bool)

  /** The user-visible effects of a submission, in the order they happen. */
  datatype Effect =
    | ShowLoading
    | Request(form: PriceForm)
    | Display(card: Card)
    | ShowError(notice: Notice)
    | HideLoading

  /**
   * What an error box can say: a validation error, the one backend
   * failure, or the type error `displayResults` raises on a `null` body.
   */
  datatype Notice = Rejected(message: Message) | BackendFailure | DisplayFailure

  /** The text shown for a notice. */
  function NoticeText(n: Notice): (t: string)
    ensures t != ""
  {
    match n
    case Rejected(m) => Text(m)
    case BackendFailure => "Cannot connect to backend server."
    case DisplayFailure => "Cannot read properties of null (reading 'prediction')"
  }

  /** The form data the handler builds: the company trimmed, the prices as parsed. */
  function FormData(raw: RawForm): (f: PriceForm)
    ensures f.company == Trim(raw.company)
    ensures f.open == raw.open && f.high == raw.high && f.low == raw.low && f.close == raw.close
  {
    PriceForm(Trim(raw.company), raw.open, raw.high, raw.low, raw.close)
  }

  /**
   * `makePrediction`: the parsed body of any `ok` response, whatever its
   * shape; a failed connection, a non-ok status and a body that is not
   * JSON all become the same backend error.
   */
  function MakePrediction(reply: Reply): (r: Result<Json, Notice>)
    ensures r.Success? <==> reply.Response? && reply.ok && reply.body.Some?
    ensures r.Success? ==> r.value == reply.body.value
    ensures r.Failure? ==> r.error == BackendFailure
  {
    match reply
    case NoConnection => Failure(BackendFailure)
    case Response(ok, body) =>
      if !ok then Failure(BackendFailure)
      else match body
        case None => Failure(BackendFailure)
        case Some(p) => Success(p)
  }

  /**
   * `displayResults`: the card built from whatever fields the body has; the
   * trend reads upward only for the exact string "UP". A `null` body makes
   * the first field read throw before anything is shown.
   */
  function DisplayResults(data: Json, currentClose: real): (e: Effect)
    ensures data.JsonNull? ==> e == ShowError(DisplayFailure)
    ensures data.Value? ==> e.Display? && e.card.current == currentClose && e.card.predicted == data.prediction
    ensures data.Value? ==> (e.card.upward <==> data.trend == Some("UP"))
  {
    match data
    case JsonNull => ShowError(DisplayFailure)
    case Value(prediction, trend) => Display(Card(currentClose, prediction, trend == Some("UP")))
  }

  /** The effect that reports the backend's answer: the result card, or an error. */
  function Outcome(reply: Reply, currentClose: real): Effect
  {
    match MakePrediction(reply)
    case Failure(notice) => ShowError(notice)
    case Success(data) => DisplayResults(data, currentClose)
  }

  /** The trace of a rejected form: the validation message, then loading cleared. */
  function ErrorTrace(notice: Notice): (trace: seq<Effect>)
    ensures |trace| == 2 && trace[0] == ShowError(notice) && trace[1] == HideLoading
  {
    [ShowError(notice), HideLoading]
  }

  /** The trace of an accepted form: loading shown, the request, its outcome, loading cleared. */
  function RequestTrace(form: PriceForm, outcome: Effect): (trace: seq<Effect>)
    ensures |trace| == 4
    ensures trace[0] == ShowLoading && trace[1] == Request(form) && trace[2] == outcome && trace[3] == HideLoading
  {
    [ShowLoading, Request(form), outcome, HideLoading]
  }

  /**
   * What the handler does once the verdict on `form` is known: a rejected
   * form only shows its error; an accepted one shows loading, sends the
   * request, reports the answer; loading is cleared last either way.
   */
  function Respond(form: PriceForm, verdict: Verdict, reply: Reply): (trace: seq<Effect>)
    ensures 0 < |trace| && trace[|trace| - 1] == HideLoading
    ensures (exists k :: 0 <= k < |trace| && trace[k].Request?) <==> verdict == Valid
    ensures verdict.Invalid? ==> trace == [ShowError(Rejected(verdict.message)), HideLoading]
    ensures forall k :: 0 <= k < |trace| && trace[k].Request? ==>
      trace[k].form == form && 0 < k && trace[k - 1] == ShowLoading
  {
    match verdict
    case Invalid(message) =>
      ErrorTrace(Rejected(message))
    case Valid =>
      var trace := RequestTrace(form, Outcome(reply, form.close));
      assert trace[1].Request?;
      trace
  }

  /**
   * `handleSubmit`: validate first; only a valid form turns the loading
   * state on and issues the request; the outcome is displayed or its error
   * shown; and the loading state is cleared on every path.
   */
  function HandleSubmit(raw: RawForm, reply: Reply): (trace: seq<Effect>)
    ensures 0 < |trace| && trace[|trace| - 1] == HideLoading
    ensures (exists k :: 0 <= k < |trace| && trace[k].Request?) <==> ValidateInputs(FormData(raw)) == Valid
    ensures ValidateInputs(FormData(raw)).Invalid? ==>
      trace == [ShowError(Rejected(ValidateInputs(FormData(raw)).message)), HideLoading]
    ensures forall k :: 0 <= k < |trace| && trace[k].Request? ==>
      trace[k].form == FormData(raw) && 0 < k && trace[k - 1] == ShowLoading
  {
    var form := FormData(raw);
    Respond(form, ValidateInputs(form), reply)
  }

  /** The parts of the page the handler changes. */
  datatype Page = Page(loading: bool, error: Option<Notice>, shown: Option<Card>)

  /**
   * The effect of one call on the page: `showLoading` turns loading on and
   * hides the error (through `hideError`) but leaves an earlier result in
   * view; `showError` shows the error and hides the result section;
   * `displayResults` shows the card; `hideLoading` turns loading off; the
   * request itself changes nothing visible.
   */
  function Apply(p: Page, e: Effect): (q: Page)
    ensures e.ShowLoading? ==> q.loading && q.error.None? && q.shown == p.shown
    ensures e.Request? ==> q == p
    ensures e.Display? ==> q.shown == Some(e.card) && q.loading == p.loading && q.error == p.error
    ensures e.ShowError? ==> q.error == Some(e.notice) && q.shown.None? && q.loading == p.loading
    ensures e.HideLoading? ==> !q.loading && q.error == p.error && q.shown == p.shown
  {
    match e
    case ShowLoading => p.(loading := true, error := None)
    case Request(_) => p
    case Display(card) => p.(shown := Some(card))
    case ShowError(notice) => p.(error := Some(notice), shown := None)
    case HideLoading => p.(loading := false)
  }

  /** The page after a trace of effects. */
  function Run(p: Page, trace: seq<Effect>): Page
    decreases |trace|
  {
    if |trace| == 0 then p else Run(Apply(p, trace[0]), trace[1..])
  }

  /** Running two effects applies them in order. */
  lemma RunTwo(p: Page, a: Effect, b: Effect)
    ensures Run(p, [a, b]) == Apply(Apply(p, a), b)
  {
    assert [a, b][1..] == [b];
    assert [b][1..] == [];
    assert Run(Apply(p, a), [b]) == Run(Apply(Apply(p, a), b), []);
  }

  /** Running four effects applies them in order. */
  lemma RunFour(p: Page, a: Effect, b: Effect, c: Effect, d: Effect)
    ensures Run(p, [a, b, c, d]) == Apply(Apply(Apply(Apply(p, a), b), c), d)
  {
    assert [a, b, c, d][1..] == [b, c, d];
    assert [b, c, d][1..] == [c, d];
    RunTwo(Apply(Apply(p, a), b), c, d);
  }

  /**
   * Whatever the page looked like before and whatever the backend does,
   * a submission never leaves the page loading; an invalid form shows its
   * validation message and no result; a failed request shows the backend
   * error; a `null` body shows the display error; any other body from an
   * ok response is shown as a card with no error.
   */
  lemma SubmitOutcome(p: Page, raw: RawForm, reply: Reply)
    ensures var after := Run(p, HandleSubmit(raw, reply));
      && !after.loading
      && (ValidateInputs(FormData(raw)).Invalid? ==>
            after.error == Some(Rejected(ValidateInputs(FormData(raw)).message)) && after.shown.None?)
      && (ValidateInputs(FormData(raw)).Valid? && MakePrediction(reply).Failure? ==>
            after.error == Some(BackendFailure) && after.shown.None?)
      && (ValidateInputs(FormData(raw)).Valid? && MakePrediction(reply) == Success(JsonNull) ==>
            after.error == Some(DisplayFailure) && after.shown.None?)
      && (ValidateInputs(FormData(raw)).Valid? && MakePrediction(reply).Success? && MakePrediction(reply).value.Value? ==>
            after.error.None? && after.shown.Some? && after.shown.value.current == raw.close
            && after.shown.value.predicted == MakePrediction(reply).value.prediction
            && (after.shown.value.upward <==> MakePrediction(reply).value.trend == Some("UP")))
  {
    var form := FormData(raw);
    if ValidateInputs(form).Invalid? {
      InvalidOutcome(p, raw, reply);
    } else {
      ValidOutcome(p, raw, reply);
    }
  }

  /** The page after an error trace: the message shown, no result, loading off. */
  lemma RunErrorTrace(p: Page, notice: Notice)
    ensures Run(p, ErrorTrace(notice)) == Page(false, Some(notice), None)
  {
    RunTwo(p, ShowError(notice), HideLoading);
  }

  /** The page after a request trace: the outcome applied over a loading page with no error, then loading off. */
  lemma RunRequestTrace(p: Page, form: PriceForm, outcome: Effect)
    ensures Run(p, RequestTrace(form, outcome)) == Apply(Page(true, None, p.shown), outcome).(loading := false)
  {
    RunFour(p, ShowLoading, Request(form), outcome, HideLoading);
  }

  /** An invalid form: its message is shown, nothing is, and loading is off. */
  lemma InvalidOutcome(p: Page, raw: RawForm, reply: Reply)
    requires ValidateInputs(FormData(raw)).Invalid?
    ensures var after := Run(p, HandleSubmit(raw, reply));
      !after.loading && after.error == Some(Rejected(ValidateInputs(FormData(raw)).message)) && after.shown.None?
  {
    RunErrorTrace(p, Rejected(ValidateInputs(FormData(raw)).message));
  }

  /** A valid form: the page ends showing the backend's answer, with loading off. */
  lemma ValidOutcome(p: Page, raw: RawForm, reply: Reply)
    requires ValidateInputs(FormData(raw)).Valid?
    ensures var after := Run(p, HandleSubmit(raw, reply));
      && !after.loading
      && (MakePrediction(reply).Failure? ==> after.error == Some(BackendFailure) && after.shown.None?)
      && (MakePrediction(reply) == Success(JsonNull) ==> after.error == Some(DisplayFailure) && after.shown.None?)
      && (MakePrediction(reply).Success? && MakePrediction(reply).value.Value? ==>
            after.error.None? && after.shown.Some? && after.shown.value.current == raw.close
            && after.shown.value.predicted == MakePrediction(reply).value.prediction
            && (after.shown.value.upward <==> MakePrediction(reply).value.trend == Some("UP")))
  {
    var form := FormData(raw);
    RunRequestTrace(p, form, Outcome(reply, form.close));
  }

  /**
   * An ok response carrying an error object instead of a prediction, as the
   * backend sends for an unknown company, is not reported as an error: the
   * page shows a card with no predicted price (a NaN amount) and a downward
   * trend, and no error.
   */
  lemma ErrorObjectShownAsResult(p: Page, raw: RawForm)
    requires ValidateInputs(FormData(raw)).Valid?
    ensures var after := Run(p, HandleSubmit(raw, Response(true, Some(Value(None, None)))));
      && !after.loading && after.error.None? && after.shown == Some(Card(raw.close, None, false))
  {
    var reply := Response(true, Some(Value(None, None)));
    var form := FormData(raw);
    assert Outcome(reply, form.close) == Display(Card(raw.close, None, false));
    RunRequestTrace(p, form, Display(Card(raw.close, None, false)));
  }

  /**
   * A company field holding nothing but white space is rejected as no
   * company at all, before any price is looked at, and no request is sent.
   */
  lemma BlankCompanyRejected(raw: RawForm, reply: Reply)
    requires AllTrimmable(raw.company)
    ensures ValidateInputs(FormData(raw)) == Invalid(NoCompany)
    ensures forall e :: e in HandleSubmit(raw, reply) ==> !e.Request?
  {
    TrimEmptyIff(raw.company);
  }
}
