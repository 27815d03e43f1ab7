/** The prediction endpoint as the components see it: the settled result of
    `fetch` and `response.json()`, and the reply bodies the endpoint sends. */
module Backend {
  import opened Js

  /** How a request ends. `NetworkFail`: `fetch` rejected (offline, DNS,
      CORS). `Response`: a status arrived; `ok` is `response.ok` (a 2xx
      status) and `body` is what `response.json()` resolves to, `None` when
      it rejects because the body is not JSON. */
  datatype FetchOutcome =
    | NetworkFail
    | Response(ok: bool, body: Option<JsValue>)

  /** The reply the frontend is written against: one-element `prediction`
      and `probability` arrays and optional `risk_factors`. */
  function PredictionBody(prediction: real, probability: real, riskFactors: Option<JsValue>): (b: JsValue)
    ensures b.Obj? && "error" !in b.props
    ensures Prop(b, "prediction") == Arr([Num(prediction)])
    ensures Prop(b, "probability") == Arr([Num(probability)])
    ensures Prop(b, "risk_factors") == if riskFactors.Some? then riskFactors.value else Undefined
  {
    var core := map["prediction" := Arr([Num(prediction)]), "probability" := Arr([Num(probability)])];
    if riskFactors.Some? then Obj(core["risk_factors" := riskFactors.value]) else Obj(core)
  }

  /** An error reply: `{ "error": message }`. */
  function ErrorBody(message: string): (b: JsValue)
    ensures Prop(b, "error") == Str(message)
    ensures Prop(b, "prediction") == Undefined && Prop(b, "probability") == Undefined
  {
    Obj(map["error" := Str(message)])
  }

  /** The success reply the Azure function under api/ would send: `prediction` and
      `probability` are scalars, not arrays. */
  function ScalarBody(prediction: int, probability: real): (b: JsValue)
    ensures Prop(b, "prediction") == Num(prediction as real)
    ensures Prop(b, "probability") == Num(probability)
    ensures Prop(b, "error") == Undefined
  {
    Obj(map["prediction" := Num(prediction as real), "probability" := Num(probability)])
  }
}
