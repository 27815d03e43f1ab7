/** The older CreditRiskPredictor component: numeric fields converted on
    every keystroke, one POST per submit, and a single result text. */
module CreditRiskPredictor {
  import opened Js
  import opened Backend
  import opened Form
  import opened Events

  const HighRisk := "High Risk of Default"
  const LowRisk := "Low Risk of Default"
  const ErrorText := "Error making prediction"

  /** The text the `try`/`catch` stores. `response.ok` is never read; only
      a thrown error leads to `ErrorText`: `fetch` rejecting, the body not
      being JSON, or reading `.prediction` or `[0]` of null or undefined.
      Element 0 strictly equal to 1 gives `HighRisk`, any other value
      (0, 2, "1", undefined, ...) gives `LowRisk`. */
  function ResultText(outcome: FetchOutcome): (r: string)
    ensures r == HighRisk || r == LowRisk || r == ErrorText
    ensures r == ErrorText <==>
      || outcome.NetworkFail?
      || outcome.body.None?
      || Nullish(outcome.body.value)
      || Nullish(Prop(outcome.body.value, "prediction"))
    ensures r == HighRisk <==>
      && outcome.Response? && outcome.body.Some? && !Nullish(outcome.body.value)
      && Element0(Prop(outcome.body.value, "prediction")) == Some(Num(1.0))
  {
    match outcome
    case NetworkFail => ErrorText
    case Response(_, body) =>
      if body.None? then ErrorText
      else
        match Property(body.value, "prediction")
        case None => ErrorText
        case Some(p) =>
          match Element0(p)
          case None => ErrorText
          case Some(x) => if x == Num(1.0) then HighRisk else LowRisk
  }

  /** The status is never consulted: the same body gives the same text. */
  lemma StatusIgnored(body: Option<JsValue>)
    ensures ResultText(Response(false, body)) == ResultText(Response(true, body))
  {
  }

  /** The component's state cells. */
  datatype State = State(formData: Fields<real>, prediction: string, loading: bool)

  /** The state on mount: every field 0, no text, not loading. */
  function Initial(): State {
    State(Fields(0.0, 0.0, 0.0, 0.0), "", false)
  }

  /** `handleChange`: the named field takes `Number(value)` at once; nothing
      else changes. */
  function AfterChange(s: State, field: Field, value: string, number: string -> real): (r: State)
    ensures r.formData.Get(field) == number(value)
    ensures forall g :: g != field ==> r.formData.Get(g) == s.formData.Get(g)
    ensures r.prediction == s.prediction && r.loading == s.loading
  {
    s.(formData := s.formData.With(field, number(value)))
  }

  /** The state while the request is in flight. */
  function Begin(s: State): (r: State)
    ensures r.loading && r.prediction == "" && r.formData == s.formData
  {
    s.(loading := true, prediction := "")
  }

  /** A whole submission, taken as atomic: the text is the outcome's text,
      which is never empty, so the panel always shows afterwards; nothing
      is loading and the fields are kept. */
  function AfterSubmit(s: State, outcome: FetchOutcome): (r: State)
    ensures !r.loading && r.formData == s.formData
    ensures r.prediction == ResultText(outcome) && r.prediction != ""
  {
    Begin(s).(prediction := ResultText(outcome), loading := false)
  }

  /** The component, with one field per state cell. */
  class Component {
    var formData: Fields<real>
    var prediction: string
    var loading: bool

    function Snapshot(): State
      reads this
    {
      State(formData, prediction, loading)
    }

    constructor ()
      ensures Snapshot() == Initial()
    {
      formData := Fields(0.0, 0.0, 0.0, 0.0);
      prediction := "";
      loading := false;
    }

    /** `number` is JavaScript's `Number`. */
    method HandleChange(field: Field, value: string, number: string -> real)
      modifies this
      ensures Snapshot() == AfterChange(old(Snapshot()), field, value, number)
    {
      formData := formData.With(field, number(value));
    }

    /** `handleSubmit`; `input` is what is POSTed, the fields as they are. */
    method HandleSubmit(outcome: FetchOutcome) returns (input: seq<real>)
      modifies this
      ensures input == old(formData).Input()
      ensures Snapshot() == AfterSubmit(old(Snapshot()), outcome)
    {
      loading := true;
      prediction := "";
      assert Snapshot() == Begin(old(Snapshot()));
      input := [formData.creditLimit, formData.age, formData.billAmount, formData.paymentAmount];
      prediction := ResultText(outcome);
      loading := false;
    }
  }

  // ---------------------------------------------------------------------
  // What the state shows

  /** `{prediction && ...}`: the panel shows when the text is truthy, that is non-empty. */
  predicate PanelShown(prediction: string)
    ensures PanelShown(prediction) <==> prediction != ""
  {
    Truthy(Str(prediction))
  }

  /** `sub` occurs in `s` starting at index `i`. */
  predicate OccursAt(s: string, sub: string, i: int) {
    0 <= i && i + |sub| <= |s| && s[i..i + |sub|] == sub
  }

  /** JavaScript's `s.includes(sub)`: only a string no longer than `s` can
      occur in it, and the empty string occurs in every string. */
  predicate Includes(s: string, sub: string)
    ensures Includes(s, sub) ==> |sub| <= |s|
    ensures sub == [] ==> Includes(s, sub)
  {
    assert sub == [] ==> OccursAt(s, sub, 0);
    exists i :: 0 <= i <= |s| - |sub| && OccursAt(s, sub, i)
  }

  /** A string that lacks the first character of `sub` does not include it. */
  lemma NotIncludes(s: string, sub: string)
    requires |sub| > 0 && sub[0] !in s
    ensures !Includes(s, sub)
  {
    forall i | 0 <= i && i + |sub| <= |s|
      ensures !OccursAt(s, sub, i)
    {
      assert s[i..i + |sub|][0] == s[i];
    }
  }

  datatype PanelStyle = PanelStyle(backgroundColor: string, color: string)

  const Danger := PanelStyle("#f8d7da", "#721c24")
  const Safe := PanelStyle("#d4edda", "#155724")

  /** Red styling exactly when the text includes "High". */
  function Style(prediction: string): (st: PanelStyle)
    ensures st == Danger <==> Includes(prediction, "High")
    ensures st == Danger || st == Safe
  {
    if Includes(prediction, "High") then Danger else Safe
  }

  /** The three texts in their styling: only `HighRisk` is red, so the error
      text is shown in the same green as `LowRisk`. */
  lemma StyleOfTexts()
    ensures Style(HighRisk) == Danger
    ensures Style(LowRisk) == Safe
    ensures Style(ErrorText) == Safe
  {
    assert OccursAt(HighRisk, "High", 0);
    NotIncludes(LowRisk, "High");
    NotIncludes(ErrorText, "High");
  }

  // ---------------------------------------------------------------------
  // Any sequence of user events

  function Step(s: State, e: Event, number: string -> real): State {
    match e
    case Typed(f, v) => AfterChange(s, f, v, number)
    case Submitted(o) => AfterSubmit(s, o)
  }

  /** The state after the events, oldest first. */
  function Run(s: State, events: seq<Event>, number: string -> real): State
    decreases |events|
  {
    if events == [] then s
    else Step(Run(s, events[..|events| - 1], number), events[|events| - 1], number)
  }

  /** What holds between events: nothing is loading and the text is empty or
      one of the three texts. */
  predicate Settled(s: State) {
    && !s.loading
    && (s.prediction == "" || s.prediction == HighRisk || s.prediction == LowRisk || s.prediction == ErrorText)
  }

  lemma {:induction false} RunKeepsSettled(s: State, events: seq<Event>, number: string -> real)
    requires Settled(s)
    ensures Settled(Run(s, events, number))
    decreases |events|
  {
    if events != [] {
      RunKeepsSettled(s, events[..|events| - 1], number);
    }
  }

  /** Every state reachable from mount is settled. */
  lemma Reachable(events: seq<Event>, number: string -> real)
    ensures Settled(Run(Initial(), events, number))
  {
    RunKeepsSettled(Initial(), events, number);
  }

  /** A field holds `Number` of the string last typed into it, or its old
      value; submitting never clears it. */
  lemma {:induction false} RunForm(s: State, events: seq<Event>, number: string -> real, f: Field)
    ensures Run(s, events, number).formData.Get(f) ==
      match LastTyped(events, f)
      case Some(v) => number(v)
      case None => s.formData.Get(f)
    decreases |events|
  {
    if events != [] {
      RunForm(s, events[..|events| - 1], number, f);
    }
  }

  /** After at least one submission the panel shows the last outcome's text. */
  lemma {:induction false} LastSubmitDecides(s: State, events: seq<Event>, number: string -> real)
    requires LastOutcome(events).Some?
    ensures Run(s, events, number).prediction == ResultText(LastOutcome(events).value)
    ensures PanelShown(Run(s, events, number).prediction)
    decreases |events|
  {
    if events[|events| - 1].Typed? {
      LastSubmitDecides(s, events[..|events| - 1], number);
    }
  }
}
