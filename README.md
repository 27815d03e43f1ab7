# Credit-risk form components, modelled in Dafny

This project models the logic of the two React form components of the
credit-risk web app.

- **PredictionForm** holds four text fields. A submit POSTs
  `{ input: [creditLimit, age, billAmount, paymentAmount] }`, each value
  passed through `Number`. It then checks the reply in order: the status,
  the body's `error` field, then the `prediction` and `probability`
  arrays. It stores element 0 of each array and `risk_factors`, and any
  failure shows one generic message. The result block classifies the
  reply with `getRiskLevel`, a threshold table with two branches. The
  heading takes its colour from the probability. Its label takes
  `1 - probability` whenever the prediction is not 0.
- **CreditRiskPredictor** is the older component. It converts each field
  with `Number` on every keystroke and never checks `response.ok`. It turns
  `data.prediction[0] === 1` into "High Risk of Default" and every other
  value into "Low Risk of Default". Anything thrown gives "Error making
  prediction". A text that contains "High" gets red styling.

How the model is built:

- `Js` models reply bodies as JavaScript values. It covers truthiness and
  property and index reads that may throw.
- `Backend` models how a request ends: the network fails, or a status
  arrives with a JSON body or with a body that is not JSON.
- `Form` holds the four fields and their fixed order on the wire.
- `Risk` holds `getRiskLevel`.
- Each component has its own module. Each has a state datatype with
  specification functions per handler, and a `Component` class whose
  fields are the component's state cells. The class methods are proved
  against those functions.
- A sequence of user events (`Events`) is folded over the state. This
  gives the invariants that hold between events, and shows that the last
  submission decides what is shown.
- `Contrast` sets the two components side by side on the same reply. This
  includes the replies that the Azure function in
  `api/PredictFunction/__init__.py` would send.

Three behaviours of the code are worth knowing before reading the model:

- **Server errors.** A reply whose `error` field is truthy shows the same
  "Error making prediction. Please try again." as every other failure; the
  server's message only reaches the console (`ErrorReplyRejected`).
- **Which predictions are defaults.** `getRiskLevel` uses its default
  branch for every prediction other than 0, while the "Default" chip tests
  `=== 1`; a prediction of 2 is both (`NeitherZeroNorOne`).
- **The `error` field.** Only a truthy `error` rejects the reply, so
  `"error": ""` passes (`FalsyErrorIgnored`).

## Model

| member | source | states |
|---|---|---|
| `Js.Element0` | src/components/CreditRiskPredictor.tsx:42 | `v[0]` throws exactly on null or undefined; an array gives its first element or undefined, a number or boolean gives undefined |
| `Js.ToNumeric` | src/components/PredictionForm.tsx:221-233 | the number a comparison with 0 sees: a number itself, NaN for undefined and objects; unmodelled only for strings and non-empty arrays |
| `Backend.PredictionBody` | src/components/PredictionForm.tsx:74-80 | the reply the frontend expects carries one-element `prediction`/`probability` arrays, no `error`, and `risk_factors` when given |
| `Backend.ErrorBody` | api/PredictFunction/__init__.py:41-46 | an error reply carries the message under `error` and no prediction or probability |
| `Backend.ScalarBody` | api/PredictFunction/__init__.py:33-36 | the Azure function's success reply carries `prediction` and `probability` as scalars, not arrays |
| `Form.Fields.With` | src/components/PredictionForm.tsx:34-37 | `{ ...prev, [name]: value }` sets the named field and keeps the other three |
| `Form.Fields.Map` | src/components/PredictionForm.tsx:55-58 | converting the fields applies the conversion to each field and to nothing else |
| `Form.Fields.Input` | src/components/CreditRiskPredictor.tsx:32-37 | the `input` array has four entries, each field at its position |
| `Risk.GetRiskLevel` | src/components/PredictionForm.tsx:89-103 | prediction 0: Low iff p < 0.1, Moderate iff 0.1 ≤ p < 0.3, High iff 0.3 ≤ p < 0.5, Very High otherwise. Any other prediction: Very High iff p > 0.8, High iff 0.6 < p ≤ 0.8, Moderate iff 0.4 < p ≤ 0.6, Low otherwise. The colour is the branch's colour for that level |
| `Risk.Monotone` | src/components/PredictionForm.tsx:91-102 | within each branch a larger probability never gives a lower level |
| `Risk.SharedColour` | src/components/PredictionForm.tsx:95-101 | "#F44336" is Very High in one branch and Moderate in the other |
| `Risk.ColourDeterminesLevel` | src/components/PredictionForm.tsx:89-103 | within one branch equal colours mean equal levels |
| `PredictionForm.Validate` | src/components/PredictionForm.tsx:63-80 | accepted iff the status is ok, the body is JSON and not null, `error` is falsy and both fields are arrays. Then it holds element 0 of each array and `risk_factors`. A network failure and a non-ok status are rejected before the body is read. A malformed reply has a falsy `error` |
| `PredictionForm.AfterChange` | src/components/PredictionForm.tsx:32-38 | only the named field of `formState` changes, to the typed string; every other cell is unchanged |
| `PredictionForm.Request` | src/components/PredictionForm.tsx:53-60 | `input` is four numbers, `Number` of each field at its position |
| `PredictionForm.Reset` | src/components/PredictionForm.tsx:42-45 | error cleared, prediction and probability null, loading set; form and `riskFactors` untouched |
| `PredictionForm.AfterSubmit` | src/components/PredictionForm.tsx:40-87 | afterwards loading is false and the form is unchanged. On a rejected reply: the generic error, null prediction and probability, and the old `riskFactors`. On an accepted one: no error, and the parsed values |
| `PredictionForm.Component.constructor` | src/components/PredictionForm.tsx:20-30 | the initial state: empty fields, null results, no error, not loading |
| `PredictionForm.Component.HandleChange` | src/components/PredictionForm.tsx:32-38 | the new state is `AfterChange` of the old |
| `PredictionForm.Component.HandleSubmit` | src/components/PredictionForm.tsx:40-87 | POSTs `Request` of the form as it was; the new state is `AfterSubmit` of the old |
| `PredictionForm.ErrorShown` | src/components/PredictionForm.tsx:175-179 | the error line shows iff the error text is non-empty |
| `PredictionForm.ResultShown` | src/components/PredictionForm.tsx:181 | the result block needs both cells non-null, and shows when both are undefined |
| `PredictionForm.HeadingColour` | src/components/PredictionForm.tsx:188 | the heading's colour is the branch colour of the classifier's level for the raw probability; for a non-zero prediction it is the Very High colour iff p > 0.8 |
| `PredictionForm.HeadingText` | src/components/PredictionForm.tsx:193 | one of the four "… Risk" labels; for a non-zero prediction "Low Risk" iff p ≥ 0.6 |
| `PredictionForm.RiskOfCells` | src/components/PredictionForm.tsx:89-103 | `getRiskLevel` on the stored cells: on numbers it is `GetRiskLevel`; on a NaN probability every comparison fails, giving Very High for the number 0 and Low for anything else |
| `PredictionForm.ShownHeading` | src/components/PredictionForm.tsx:181-193 | a heading only when the block shows; on number cells it is `HeadingColour` and `HeadingText`; on an undefined probability it is "Very High Risk" for the number 0 and "Low Risk" in the default Low colour otherwise |
| `PredictionForm.PredictionChipLabel` | src/components/PredictionForm.tsx:199 | "Prediction: Default" iff the prediction is exactly the number 1, "Prediction: No Default" otherwise |
| `PredictionForm.ResultChipColour` | src/components/PredictionForm.tsx:200-208 | the three result chips are in the error colour iff the prediction is exactly the number 1 |
| `PredictionForm.RiskFactorsShown` | src/components/PredictionForm.tsx:212 | the risk-factor block needs the result block and non-nullish `riskFactors`; any object shows it |
| `PredictionForm.HeadingLevel` | src/components/PredictionForm.tsx:193 | prediction 0: the classifier's level. Otherwise: Very High iff p < 0.2, High iff 0.2 ≤ p < 0.4, Moderate iff 0.4 ≤ p < 0.6, Low iff p ≥ 0.6 |
| `PredictionForm.NoDefaultHeadingAgrees` | src/components/PredictionForm.tsx:188-193 | for prediction 0 the heading's colour is the colour of its label's level |
| `PredictionForm.DefaultHeadingDisagrees` | src/components/PredictionForm.tsx:188-193 | for any other prediction, label and colour name the same level iff 0.4 < p < 0.6 |
| `PredictionForm.LowRiskInVeryHighColour` | src/components/PredictionForm.tsx:188-193 | prediction 1, p = 0.9 reads "Low Risk" in the Very High colour |
| `PredictionForm.DefaultHeadingAntitone` | src/components/PredictionForm.tsx:193 | for a default prediction a larger probability never raises the heading's level |
| `PredictionForm.NeitherZeroNorOne` | src/components/PredictionForm.tsx:199-200 | prediction 2 shows a success "No Default" chip but is classified with the default thresholds: above 0.8 it is Very High in the default colour "#C62828", unlike what prediction 0 gives |
| `PredictionForm.CompareWithZero` | src/components/PredictionForm.tsx:221-233 | `v >= 0` / `v <= 0` is the numeric comparison for numbers and false for undefined and objects |
| `PredictionForm.FactorChips` | src/components/PredictionForm.tsx:219-233 | four chips. For a number, payment ratio, credit limit and age are a success iff ≥ 0, credit utilisation iff ≤ 0. A missing age shows in the error colour |
| `PredictionForm.WellFormedReplyAccepted` | src/components/PredictionForm.tsx:74-80 | every well-formed reply is accepted with exactly the values it carries |
| `PredictionForm.ErrorReplyRejected` | src/components/PredictionForm.tsx:70-72 | a non-empty `error` is rejected; the generic error shows and no result does |
| `PredictionForm.FalsyErrorIgnored` | src/components/PredictionForm.tsx:70 | `"error": ""` does not reject the reply |
| `PredictionForm.MissingProbabilityRejected` | src/components/PredictionForm.tsx:74-76 | a reply without `probability` is malformed; only the error shows |
| `PredictionForm.EmptyArraysShowResult` | src/components/PredictionForm.tsx:181-199 | empty arrays store undefined, which is not null, so the result block shows, headed "Low Risk" in the default Low colour beside a "No Default" chip |
| `PredictionForm.NullPredictionHidesResult` | src/components/PredictionForm.tsx:181 | `[null]` stores a null prediction beside a number, and neither result nor error shows |
| `PredictionForm.ExampleDefaultReply` | src/components/PredictionForm.tsx:181-205 | the state after the reply with prediction 1, p = 0.75 shows a Default chip and the heading "Low Risk" in the default High colour |
| `PredictionForm.StaleRiskFactors` | src/components/PredictionForm.tsx:42-45 | a failed submit keeps the previous reply's `riskFactors` while the result is hidden |
| `PredictionForm.RunKeepsSettled` | src/components/PredictionForm.tsx:81-86 | any event sequence keeps: not loading, error empty or generic, error implies null results |
| `PredictionForm.Reachable` | src/components/PredictionForm.tsx:175-181 | from mount, between events nothing is loading, and the error never shows together with the result |
| `PredictionForm.RunForm` | src/components/PredictionForm.tsx:32-38 | each field holds the string last typed into it; submits never clear it |
| `PredictionForm.LastSubmitDecides` | src/components/PredictionForm.tsx:78-83 | after any events, the error and results are those of the last submission's reply |
| `CreditRiskPredictor.ResultText` | src/components/CreditRiskPredictor.tsx:41-45 | one of three texts. The error text iff something throws: the network, a non-JSON body, a null body or a nullish `prediction`. The high text iff `prediction[0]` is exactly 1 |
| `CreditRiskPredictor.StatusIgnored` | src/components/CreditRiskPredictor.tsx:41 | the status never changes the text |
| `CreditRiskPredictor.AfterChange` | src/components/CreditRiskPredictor.tsx:51-57 | the named field takes `Number(value)`; the other fields, the text and loading are unchanged |
| `CreditRiskPredictor.Begin` | src/components/CreditRiskPredictor.tsx:22-23 | a submit first sets loading and clears the text |
| `CreditRiskPredictor.AfterSubmit` | src/components/CreditRiskPredictor.tsx:20-49 | afterwards loading is false, the fields are kept, and the text is the reply's text, never empty |
| `CreditRiskPredictor.Component.constructor` | src/components/CreditRiskPredictor.tsx:11-18 | every field 0, no text, not loading |
| `CreditRiskPredictor.Component.HandleChange` | src/components/CreditRiskPredictor.tsx:51-57 | the new state is `AfterChange` of the old |
| `CreditRiskPredictor.Component.HandleSubmit` | src/components/CreditRiskPredictor.tsx:20-49 | POSTs the fields in order; the new state is `AfterSubmit` of the old |
| `CreditRiskPredictor.PanelShown` | src/components/CreditRiskPredictor.tsx:132 | the result panel shows iff the text is non-empty |
| `CreditRiskPredictor.Includes` | src/components/CreditRiskPredictor.tsx:134 | only a string no longer than the text can be included; the empty string always is |
| `CreditRiskPredictor.NotIncludes` | src/components/CreditRiskPredictor.tsx:134 | a string without the first character of `sub` does not include `sub` |
| `CreditRiskPredictor.Style` | src/components/CreditRiskPredictor.tsx:133-136 | red styling iff the text includes "High", green otherwise |
| `CreditRiskPredictor.StyleOfTexts` | src/components/CreditRiskPredictor.tsx:132-136 | only the high text is red; the error text shows in green |
| `CreditRiskPredictor.RunKeepsSettled` | src/components/CreditRiskPredictor.tsx:46-48 | any event sequence keeps: not loading, text empty or one of the three |
| `CreditRiskPredictor.Reachable` | src/components/CreditRiskPredictor.tsx:17-18 | every state reachable from mount is settled |
| `CreditRiskPredictor.RunForm` | src/components/CreditRiskPredictor.tsx:51-57 | each field holds `Number` of the string last typed into it, or its old value |
| `CreditRiskPredictor.LastSubmitDecides` | src/components/CreditRiskPredictor.tsx:132 | after at least one submit the panel shows the last reply's text |
| `Contrast.AgreeOnWellFormedReply` | src/components/CreditRiskPredictor.tsx:42 | on a well-formed reply both succeed, CreditRiskPredictor's text is "High Risk of Default" for prediction 1 and "Low Risk of Default" otherwise, and it is high iff PredictionForm's chip says "Default" |
| `Contrast.PartOnFailedStatus` | src/components/PredictionForm.tsx:63-65 | a non-2xx status with a well-formed body is an error in PredictionForm and a risk text in CreditRiskPredictor |
| `Contrast.ScalarReply` | api/PredictFunction/__init__.py:33-36 | the Azure function's scalar reply is malformed for PredictionForm and "Low Risk of Default" for CreditRiskPredictor, even for prediction 1 |
| `Contrast.ErrorReply` | api/PredictFunction/__init__.py:41-46 | the Azure function's error reply fails in both components |
| `Contrast.BothFailWithoutBody` | src/components/CreditRiskPredictor.tsx:43-45 | a network failure or a non-JSON body fails in both |

## Left out

- Rendering is not modelled: JSX, MUI and Tailwind styling, and layout. The same goes for `src/App.tsx`, `src/pages/PredictorPage.tsx` and the rendering test `src/App.test.tsx`. Only the choices the markup makes are modelled: what is shown, which label, which colour.
- I/O is not modelled. This covers `e.preventDefault()`, `fetch`, `response.json()`, the request headers, console logging and the endpoint URL (`REACT_APP_BACKEND_URL` or `http://localhost:5000`). The settled result of the request is an input (`Backend.FetchOutcome`).
- Overlapping submissions are not modelled. Each submission is taken as atomic. Two requests in flight can race so that the last to resolve wins; that interleaving is concurrency.
- JavaScript's `Number(string)` is a parameter, `number: string -> real`, and is not interpreted. A NaN result, the infinities and `Number('') == 0` are not modelled. Numbers are exact reals.
- The percentage texts built with `toFixed` are not modelled (PredictionForm.tsx lines 203, 207, 220 and 224). They are floating-point formatting.
- `Js.Prop`: a property read sees only an object's own entries. All keys the components read are of that kind.
- `PredictionForm.ShownHeading`: it gives no heading when the stored probability is a string or a non-empty array, because converting those to a number goes through string parsing, which is not modelled.
- `PredictionForm.CompareWithZero`: it does not say how a string or a non-empty array compares with 0. The string-to-number conversion is not modelled, so those cases give `None`.
- `handleChange` with an input name outside the four fields is not modelled. It would add a new key. The model's `Field` type has only the four inputs the markup declares.
- Browser-side input constraints are not modelled: `required`, `min`, `max`, `type="number"`. The submit button's `disabled={loading}` is not modelled either, since submissions are atomic here.
- The Azure function in `api/PredictFunction/__init__.py` is not part of this model. It loads a model through Azure ML and `mlflow`. Only the shapes of its two replies are modelled (`Backend.ScalarBody`, `Backend.ErrorBody`). It reads `LIMIT_BAL`, `AGE`, `BILL_AMT1` and `PAY_AMT1` (lines 21-26), while both components send an `input` array. So against that function every request takes the error-reply path of `Contrast.ErrorReply`.
