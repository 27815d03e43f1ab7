/** The PredictionForm component: four text fields, one POST per submit,
    a response validator, and the result block that shows the risk level. */
module PredictionForm {
  import opened Js
  import opened Backend
  import opened Form
  import opened Risk
  import opened Events

  /** The one message every failed submission shows. */
  const GenericError := "Error making prediction. Please try again."

  /** Why a submission failed. Every reason ends in the catch block and shows
      `GenericError`; the reason itself only reaches the console. */
  datatype Rejection =
    | NetworkFailure                        // `fetch` rejected
    | RequestFailed                         // `!response.ok`
    | InvalidJson                           // `response.json()` rejected
    | ReadOfNull                            // `data.error` threw: the body is `null`
    | ServerReportedError(message: JsValue) // `data.error` is truthy
    | MalformedResponse                     // `prediction` or `probability` is not an array

  /** What a successful reply puts into the component's state. */
  datatype Parsed = Parsed(prediction: JsValue, probability: JsValue, riskFactors: JsValue)

  datatype Reply = Accepted(parsed: Parsed) | Rejected(why: Rejection)

  /** The checks of the `try` block, in source order: the status, then the
      body's `error` field, then the two arrays; on success element 0 of each
      array and the `risk_factors` field. */
  function Validate(outcome: FetchOutcome): (r: Reply)
    ensures r.Accepted? <==>
      && outcome.Response? && outcome.ok && outcome.body.Some?
      && !Nullish(outcome.body.value)
      && !Truthy(Prop(outcome.body.value, "error"))
      && Prop(outcome.body.value, "prediction").Arr?
      && Prop(outcome.body.value, "probability").Arr?
    ensures r.Accepted? ==>
      var data := outcome.body.value;
      r.parsed == Parsed(First(Prop(data, "prediction").items),
                         First(Prop(data, "probability").items),
                         Prop(data, "risk_factors"))
    ensures outcome.NetworkFail? ==> r == Rejected(NetworkFailure)
    ensures outcome.Response? && !outcome.ok ==> r == Rejected(RequestFailed)
    ensures r == Rejected(MalformedResponse) ==>
      outcome.Response? && outcome.body.Some? && !Truthy(Prop(outcome.body.value, "error"))
  {
    match outcome
    case NetworkFail => Rejected(NetworkFailure)
    case Response(ok, body) =>
      if !ok then Rejected(RequestFailed)
      else if body.None? then Rejected(InvalidJson)
      else
        var data := body.value;
        match Property(data, "error")
        case None => Rejected(ReadOfNull)
        case Some(e) =>
          if Truthy(e) then Rejected(ServerReportedError(e))
          else
            var prediction := Prop(data, "prediction");
            var probability := Prop(data, "probability");
            if !prediction.Arr? || !probability.Arr? then Rejected(MalformedResponse)
            else Accepted(Parsed(First(prediction.items), First(probability.items), Prop(data, "risk_factors")))
  }

  /** The component's state cells. `prediction` and `probability` are typed
      `number | null` but hold whatever element 0 of the arrays is. */
  datatype State = State(
    formState: Fields<string>,
    prediction: JsValue,
    probability: JsValue,
    loading: bool,
    error: string,
    riskFactors: JsValue)

  /** The state on mount. */
  function Initial(): State {
    State(Fields("", "", "", ""), Null, Null, false, "", Null)
  }

  /** `handleChange`: the named field takes the typed string; nothing else changes. */
  function AfterChange(s: State, field: Field, value: string): (r: State)
    ensures r.formState.Get(field) == value
    ensures forall g :: g != field ==> r.formState.Get(g) == s.formState.Get(g)
    ensures r.(formState := s.formState) == s
  {
    s.(formState := s.formState.With(field, value))
  }

  /** The request body's `input`: each field through `Number`, at its position. */
  function Request(form: Fields<string>, number: string -> real): (input: seq<real>)
    ensures |input| == 4
    ensures forall f :: input[Position(f)] == number(form.Get(f))
  {
    form.Map(number).Input()
  }

  /** The state while the request is in flight. `riskFactors` is not reset. */
  function Reset(s: State): (r: State)
    ensures r.loading && r.error == "" && r.prediction == Null && r.probability == Null
    ensures r.formState == s.formState && r.riskFactors == s.riskFactors
  {
    s.(error := "", prediction := Null, probability := Null, loading := true)
  }

  /** The `try`/`catch`/`finally` once the outcome is known. */
  function Settle(s: State, outcome: FetchOutcome): State {
    match Validate(outcome)
    case Accepted(p) =>
      s.(prediction := p.prediction, probability := p.probability, riskFactors := p.riskFactors, loading := false)
    case Rejected(_) =>
      s.(error := GenericError, loading := false)
  }

  /** A whole submission, taken as atomic. Afterwards nothing is loading and
      the form is untouched; a rejected reply shows the generic error with no
      result and keeps the old `riskFactors`; an accepted one clears the
      error and stores element 0 of each array and `risk_factors`. */
  function AfterSubmit(s: State, outcome: FetchOutcome): (r: State)
    ensures !r.loading && r.formState == s.formState
    ensures Validate(outcome).Rejected? ==>
      && r.error == GenericError && r.prediction == Null && r.probability == Null
      && r.riskFactors == s.riskFactors
    ensures Validate(outcome).Accepted? ==>
      && r.error == ""
      && r.prediction == Validate(outcome).parsed.prediction
      && r.probability == Validate(outcome).parsed.probability
      && r.riskFactors == Validate(outcome).parsed.riskFactors
  {
    Settle(Reset(s), outcome)
  }

  /** The component, with one field per state cell. */
  class Component {
    var formState: Fields<string>
    var prediction: JsValue
    var probability: JsValue
    var loading: bool
    var error: string
    var riskFactors: JsValue

    function Snapshot(): State
      reads this
    {
      State(formState, prediction, probability, loading, error, riskFactors)
    }

    constructor ()
      ensures Snapshot() == Initial()
    {
      formState := Fields("", "", "", "");
      prediction := Null;
      probability := Null;
      loading := false;
      error := "";
      riskFactors := Null;
    }

    method HandleChange(field: Field, value: string)
      modifies this
      ensures Snapshot() == AfterChange(old(Snapshot()), field, value)
    {
      formState := formState.With(field, value);
    }

    /** `handleSubmit`; `number` is JavaScript's `Number`, and `input` is what is POSTed. */
    method HandleSubmit(number: string -> real, outcome: FetchOutcome) returns (input: seq<real>)
      modifies this
      ensures input == Request(old(formState), number)
      ensures Snapshot() == AfterSubmit(old(Snapshot()), outcome)
    {
      error := "";
      prediction := Null;
      probability := Null;
      loading := true;
      assert Snapshot() == Reset(old(Snapshot()));
      input := [number(formState.creditLimit), number(formState.age),
                number(formState.billAmount), number(formState.paymentAmount)];
      var reply := Validate(outcome);
      match reply {
        case Accepted(parsed) =>
          prediction := parsed.prediction;
          probability := parsed.probability;
          riskFactors := parsed.riskFactors;
        case Rejected(_) =>
          error := GenericError;
      }
      loading := false;
    }
  }

  // ---------------------------------------------------------------------
  // What the state shows

  /** `{error && ...}`: the message shows when it is truthy, that is non-empty. */
  predicate ErrorShown(s: State)
    ensures ErrorShown(s) <==> s.error != ""
  {
    Truthy(Str(s.error))
  }

  /** `prediction !== null && probability !== null`: undefined cells pass. */
  predicate ResultShown(s: State)
    ensures ResultShown(s) ==> !s.prediction.Null? && !s.probability.Null?
    ensures s.prediction.Undefined? && s.probability.Undefined? ==> ResultShown(s)
  {
    s.prediction != Null && s.probability != Null
  }

  /** The heading's colour comes from the raw probability. */
  function HeadingColour(prediction: real, probability: real): (c: string)
    ensures c == Colour(prediction == 0.0, GetRiskLevel(prediction, probability).level)
    ensures prediction != 0.0 ==> (c == Colour(false, VeryHigh) <==> probability > 0.8)
  {
    GetRiskLevel(prediction, probability).color
  }

  /** The heading's level comes from `1 - probability` unless the prediction
      is 0, so for a default prediction the label runs against the colour. */
  function HeadingLevel(prediction: real, probability: real): (l: Level)
    ensures prediction == 0.0 ==> l == GetRiskLevel(0.0, probability).level
    ensures prediction != 0.0 ==>
      && (l == VeryHigh <==> probability < 0.2)
      && (l == High <==> 0.2 <= probability < 0.4)
      && (l == Moderate <==> 0.4 <= probability < 0.6)
      && (l == Low <==> 0.6 <= probability)
  {
    GetRiskLevel(prediction, if prediction == 0.0 then probability else 1.0 - probability).level
  }

  /** `{level} Risk` */
  function HeadingText(prediction: real, probability: real): (t: string)
    ensures t == "Low Risk" || t == "Moderate Risk" || t == "High Risk" || t == "Very High Risk"
    ensures prediction != 0.0 ==> (t == "Low Risk" <==> probability >= 0.6)
  {
    LevelName(HeadingLevel(prediction, probability)) + " Risk"
  }

  /** For prediction 0 the heading's label and colour name the same level. */
  lemma NoDefaultHeadingAgrees(probability: real)
    ensures HeadingColour(0.0, probability) == Colour(true, HeadingLevel(0.0, probability))
  {
  }

  /** For any other prediction they name the same level only on the open
      band 0.4 < p < 0.6 (both Moderate). */
  lemma DefaultHeadingDisagrees(prediction: real, probability: real)
    requires prediction != 0.0
    ensures HeadingColour(prediction, probability) == Colour(false, HeadingLevel(prediction, probability))
        <==> 0.4 < probability < 0.6
  {
  }

  /** Prediction 1 with probability 0.9 reads "Low Risk" in the Very High colour. */
  lemma LowRiskInVeryHighColour()
    ensures HeadingText(1.0, 0.9) == "Low Risk"
    ensures HeadingColour(1.0, 0.9) == Colour(false, VeryHigh)
  {
  }

  /** For a default prediction a larger probability never raises the heading's level. */
  lemma DefaultHeadingAntitone(prediction: real, p: real, q: real)
    requires prediction != 0.0 && p <= q
    ensures Rank(HeadingLevel(prediction, q)) <= Rank(HeadingLevel(prediction, p))
  {
  }

  /** `getRiskLevel` on the cells as they are: `prediction === 0` picks the
      branch, so every value but the number 0 takes the default branch, and a
      NaN probability fails every comparison, so each branch falls through
      to its last `return`. */
  function RiskOfCells(prediction: JsValue, probability: Numeric): (r: RiskLevel)
    ensures prediction.Num? && probability.Finite? ==> r == GetRiskLevel(prediction.n, probability.x)
    ensures probability.NaN? ==>
      r == if prediction == Num(0.0) then RiskLevel(VeryHigh, Colour(true, VeryHigh))
           else RiskLevel(Low, Colour(false, Low))
  {
    var branch := if prediction == Num(0.0) then 0.0 else 1.0;
    match probability
    case Finite(p) => GetRiskLevel(branch, p)
    case NaN => if branch == 0.0 then RiskLevel(VeryHigh, "#F44336") else RiskLevel(Low, "#E57373")
  }

  datatype Heading = Heading(color: string, text: string)

  /** The result block's heading for a state: its colour from the raw
      probability, its label from `1 - probability` unless the prediction is
      the number 0. `None` when the block is hidden or the probability is a
      string or non-empty array. */
  function ShownHeading(s: State): (h: Option<Heading>)
    ensures h.Some? ==> ResultShown(s)
    ensures ResultShown(s) && s.prediction.Num? && s.probability.Num? ==>
      h == Some(Heading(HeadingColour(s.prediction.n, s.probability.n),
                        HeadingText(s.prediction.n, s.probability.n)))
    ensures ResultShown(s) && s.probability.Undefined? ==>
      h == Some(if s.prediction == Num(0.0) then Heading(Colour(true, VeryHigh), "Very High Risk")
                else Heading(Colour(false, Low), "Low Risk"))
  {
    if !ResultShown(s) then None
    else
      match ToNumeric(s.probability)
      case None => None
      case Some(p) =>
        var labelled := if s.prediction == Num(0.0) then p else OneMinus(p);
        assert LevelName(VeryHigh) + " Risk" == "Very High Risk" && LevelName(Low) + " Risk" == "Low Risk";
        Some(Heading(RiskOfCells(s.prediction, p).color,
                     LevelName(RiskOfCells(s.prediction, labelled).level) + " Risk"))
  }

  /** Chip colours of the MUI palette. */
  datatype ChipColour = SuccessChip | ErrorChip

  /** The "Prediction" chip tests `prediction === 1`, while `getRiskLevel`
      tests `prediction === 0`. */
  function PredictionChipLabel(prediction: JsValue): (t: string)
    ensures t == "Prediction: Default" <==> prediction == Num(1.0)
    ensures t == "Prediction: Default" || t == "Prediction: No Default"
  {
    "Prediction: " + if prediction == Num(1.0) then "Default" else "No Default"
  }

  /** The colour shared by the three result chips. */
  function ResultChipColour(prediction: JsValue): (c: ChipColour)
    ensures c == ErrorChip <==> prediction == Num(1.0)
  {
    if prediction == Num(1.0) then ErrorChip else SuccessChip
  }

  /** A prediction that is neither 0 nor 1 is labelled "No Default" in a
      success chip, yet classified with the default thresholds: above 0.8
      it gets the default branch's Very High colour, which the no-default
      branch never gives. */
  lemma NeitherZeroNorOne(probability: real)
    requires probability > 0.8
    ensures PredictionChipLabel(Num(2.0)) == "Prediction: No Default"
    ensures ResultChipColour(Num(2.0)) == SuccessChip
    ensures GetRiskLevel(2.0, probability) == RiskLevel(VeryHigh, Colour(false, VeryHigh))
    ensures GetRiskLevel(2.0, probability) != GetRiskLevel(0.0, probability)
  {
  }

  /** `{riskFactors && ...}` inside the result block: any object shows the
      block, even one without the four fields. */
  predicate RiskFactorsShown(s: State)
    ensures RiskFactorsShown(s) ==> ResultShown(s) && !Nullish(s.riskFactors)
    ensures s.riskFactors.Obj? ==> (RiskFactorsShown(s) <==> ResultShown(s))
  {
    ResultShown(s) && Truthy(s.riskFactors)
  }

  /** JavaScript's `v >= 0` (`atLeast`) or `v <= 0`; `None` where the
      conversion to a number is not modelled. */
  function CompareWithZero(v: JsValue, atLeast: bool): (r: Option<bool>)
    ensures v.Num? ==> r == Some(if atLeast then v.n >= 0.0 else v.n <= 0.0)
    ensures v.Undefined? || v.Obj? ==> r == Some(false)
  {
    match ToNumeric(v)
    case None => None
    case Some(NaN) => Some(false)
    case Some(Finite(x)) => Some(if atLeast then x >= 0.0 else x <= 0.0)
  }

  function ChipFor(comparison: Option<bool>): Option<ChipColour> {
    match comparison
    case Some(b) => Some(if b then SuccessChip else ErrorChip)
    case None => None
  }

  /** Colours of the four risk-factor chips, in display order: payment ratio
      `>= 0`, credit utilisation `<= 0`, credit limit `>= 0`, age `>= 0`. */
  function FactorChips(riskFactors: JsValue): (r: seq<Option<ChipColour>>)
    ensures |r| == 4
    ensures Prop(riskFactors, "payment_ratio").Num? ==>
      (r[0] == Some(SuccessChip) <==> Prop(riskFactors, "payment_ratio").n >= 0.0)
    ensures Prop(riskFactors, "credit_utilization").Num? ==>
      (r[1] == Some(SuccessChip) <==> Prop(riskFactors, "credit_utilization").n <= 0.0)
    ensures Prop(riskFactors, "credit_limit").Num? ==>
      (r[2] == Some(SuccessChip) <==> Prop(riskFactors, "credit_limit").n >= 0.0)
    ensures Prop(riskFactors, "age").Num? ==>
      (r[3] == Some(SuccessChip) <==> Prop(riskFactors, "age").n >= 0.0)
    ensures Prop(riskFactors, "age") == Undefined ==> r[3] == Some(ErrorChip)
  {
    [ ChipFor(CompareWithZero(Prop(riskFactors, "payment_ratio"), true)),
      ChipFor(CompareWithZero(Prop(riskFactors, "credit_utilization"), false)),
      ChipFor(CompareWithZero(Prop(riskFactors, "credit_limit"), true)),
      ChipFor(CompareWithZero(Prop(riskFactors, "age"), true)) ]
  }

  // ---------------------------------------------------------------------
  // Replies

  /** Every well-formed reply is accepted with exactly the values it carries. */
  lemma WellFormedReplyAccepted(prediction: real, probability: real, riskFactors: Option<JsValue>)
    ensures Validate(Response(true, Some(PredictionBody(prediction, probability, riskFactors))))
      == Accepted(Parsed(Num(prediction), Num(probability),
                         if riskFactors.Some? then riskFactors.value else Undefined))
  {
  }

  /** A non-empty error message is rejected, whatever else the body holds. */
  lemma ErrorReplyRejected(s: State, message: string)
    requires message != ""
    ensures Validate(Response(true, Some(ErrorBody(message)))) == Rejected(ServerReportedError(Str(message)))
    ensures var r := AfterSubmit(s, Response(true, Some(ErrorBody(message))));
      r.error == GenericError && !ResultShown(r)
  {
  }

  /** An `error` field that is falsy (here "") does not reject the reply. */
  lemma FalsyErrorIgnored(prediction: real, probability: real)
    ensures Validate(Response(true, Some(Obj(map[
      "error" := Str(""), "prediction" := Arr([Num(prediction)]), "probability" := Arr([Num(probability)])]))))
      == Accepted(Parsed(Num(prediction), Num(probability), Undefined))
  {
  }

  /** A reply without `probability` is malformed and shows only the error. */
  lemma MissingProbabilityRejected(s: State, prediction: real)
    ensures var o := Response(true, Some(Obj(map["prediction" := Arr([Num(prediction)])])));
      && Validate(o) == Rejected(MalformedResponse)
      && AfterSubmit(s, o).error == GenericError
      && !ResultShown(AfterSubmit(s, o))
  {
  }

  /** Empty arrays pass the checks; element 0 is `undefined`, which is not
      `null`, so the result block is shown. `undefined === 0` is false and
      every comparison with NaN fails, so it reads "Low Risk" in the default
      branch's Low colour beside a "No Default" chip. */
  lemma EmptyArraysShowResult(s: State)
    ensures var o := Response(true, Some(Obj(map["prediction" := Arr([]), "probability" := Arr([])])));
      var r := AfterSubmit(s, o);
      && r.prediction == Undefined && r.probability == Undefined
      && ResultShown(r) && !ErrorShown(r)
      && ShownHeading(r) == Some(Heading(Colour(false, Low), "Low Risk"))
      && PredictionChipLabel(r.prediction) == "Prediction: No Default"
  {
  }

  /** `[null]` as prediction with a number as probability: the two cells are
      not both null or both set, which is why the result block tests
      `prediction !== null && probability !== null`. */
  lemma NullPredictionHidesResult(s: State, probability: real)
    ensures var o := Response(true, Some(Obj(map["prediction" := Arr([Null]), "probability" := Arr([Num(probability)])])));
      && AfterSubmit(s, o).prediction == Null
      && AfterSubmit(s, o).probability == Num(probability)
      && !ResultShown(AfterSubmit(s, o))
      && !ErrorShown(AfterSubmit(s, o))
  {
  }

  /** The reply `{"prediction":[1],"probability":[0.75],...}`: a Default chip,
      a "Low Risk" heading (from 1 - 0.75) in the High colour (from 0.75). */
  lemma ExampleDefaultReply(s: State, riskFactors: JsValue)
    ensures var r := AfterSubmit(s, Response(true, Some(PredictionBody(1.0, 0.75, Some(riskFactors)))));
      && ResultShown(r) && !ErrorShown(r)
      && r.prediction == Num(1.0) && r.probability == Num(0.75)
      && PredictionChipLabel(r.prediction) == "Prediction: Default"
      && ShownHeading(r) == Some(Heading(Colour(false, High), "Low Risk"))
  {
    WellFormedReplyAccepted(1.0, 0.75, Some(riskFactors));
    assert HeadingText(1.0, 0.75) == "Low Risk";
  }

  /** `riskFactors` survives a failed submit: it still holds the previous
      reply's factors while the result block is hidden. */
  lemma StaleRiskFactors(s: State, riskFactors: JsValue)
    ensures var first := AfterSubmit(s, Response(true, Some(PredictionBody(0.0, 0.05, Some(riskFactors)))));
      var second := AfterSubmit(first, NetworkFail);
      second.riskFactors == riskFactors && !ResultShown(second) && ErrorShown(second)
  {
    WellFormedReplyAccepted(0.0, 0.05, Some(riskFactors));
  }

  // ---------------------------------------------------------------------
  // Any sequence of user events

  function Step(s: State, e: Event): State {
    match e
    case Typed(f, v) => AfterChange(s, f, v)
    case Submitted(o) => AfterSubmit(s, o)
  }

  /** The state after the events, oldest first. */
  function Run(s: State, events: seq<Event>): State
    decreases |events|
  {
    if events == [] then s else Step(Run(s, events[..|events| - 1]), events[|events| - 1])
  }

  /** What holds between events: nothing is loading, the error is empty or
      the generic message, and an error is never shown with the result. */
  predicate Settled(s: State) {
    && !s.loading
    && (s.error == "" || s.error == GenericError)
    && (s.error != "" ==> s.prediction == Null && s.probability == Null)
  }

  lemma {:induction false} RunKeepsSettled(s: State, events: seq<Event>)
    requires Settled(s)
    ensures Settled(Run(s, events))
    decreases |events|
  {
    if events != [] {
      RunKeepsSettled(s, events[..|events| - 1]);
    }
  }

  /** Every state reachable from mount is settled: never loading between
      events, never the error and the result block together. */
  lemma Reachable(events: seq<Event>)
    ensures var r := Run(Initial(), events);
      !r.loading && !(ErrorShown(r) && ResultShown(r))
  {
    RunKeepsSettled(Initial(), events);
  }

  /** A field holds the value last typed into it; submitting never clears it. */
  lemma {:induction false} RunForm(s: State, events: seq<Event>, f: Field)
    ensures Run(s, events).formState.Get(f) ==
      match LastTyped(events, f)
      case Some(v) => v
      case None => s.formState.Get(f)
    decreases |events|
  {
    if events != [] {
      RunForm(s, events[..|events| - 1], f);
    }
  }

  /** One submission at a time, the last one decides what is shown. */
  lemma {:induction false} LastSubmitDecides(s: State, events: seq<Event>)
    requires LastOutcome(events).Some?
    ensures var r := Run(s, events);
      var reply := Validate(LastOutcome(events).value);
      && (reply.Rejected? ==> r.error == GenericError && r.prediction == Null && r.probability == Null)
      && (reply.Accepted? ==> r.error == "" && r.prediction == reply.parsed.prediction
                              && r.probability == reply.parsed.probability
                              && r.riskFactors == reply.parsed.riskFactors)
    decreases |events|
  {
    var prefix := events[..|events| - 1];
    if events[|events| - 1].Typed? {
      LastSubmitDecides(s, prefix);
    }
  }
}
