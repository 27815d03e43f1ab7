/** The two components given the same reply: where their success and
    failure rules part, including on the replies the Azure function under
    api/ would send. */
module Contrast {
  import opened Js
  import opened Backend
  import PredictionForm
  import CreditRiskPredictor

  /** On a well-formed 2xx reply both succeed: CreditRiskPredictor shows
      the risk text of the prediction, and says "High Risk of Default"
      exactly when PredictionForm's chip says "Default". */
  lemma AgreeOnWellFormedReply(prediction: real, probability: real, riskFactors: Option<JsValue>)
    ensures var o := Response(true, Some(PredictionBody(prediction, probability, riskFactors)));
      && PredictionForm.Validate(o).Accepted?
      && CreditRiskPredictor.ResultText(o)
         == (if prediction == 1.0 then CreditRiskPredictor.HighRisk else CreditRiskPredictor.LowRisk)
      && (CreditRiskPredictor.ResultText(o) == CreditRiskPredictor.HighRisk
          <==> PredictionForm.PredictionChipLabel(PredictionForm.Validate(o).parsed.prediction)
               == "Prediction: Default")
  {
    PredictionForm.WellFormedReplyAccepted(prediction, probability, riskFactors);
  }

  /** A non-2xx status with a well-formed body: PredictionForm shows its
      generic error, CreditRiskPredictor shows a risk text as if it had
      succeeded. */
  lemma PartOnFailedStatus(prediction: real, probability: real, riskFactors: Option<JsValue>)
    ensures var o := Response(false, Some(PredictionBody(prediction, probability, riskFactors)));
      && PredictionForm.Validate(o) == PredictionForm.Rejected(PredictionForm.RequestFailed)
      && CreditRiskPredictor.ResultText(o)
         == if prediction == 1.0 then CreditRiskPredictor.HighRisk else CreditRiskPredictor.LowRisk
  {
  }

  /** The Azure function's success reply carries scalars: PredictionForm
      rejects it as malformed, and CreditRiskPredictor reads `1[0]`, which
      is undefined, so it says "Low Risk of Default" even for prediction 1. */
  lemma ScalarReply(prediction: int, probability: real)
    ensures var o := Response(true, Some(ScalarBody(prediction, probability)));
      && PredictionForm.Validate(o) == PredictionForm.Rejected(PredictionForm.MalformedResponse)
      && CreditRiskPredictor.ResultText(o) == CreditRiskPredictor.LowRisk
  {
  }

  /** The Azure function's error reply (status 500, `{"error": ...}`): both
      fail, PredictionForm on the status, CreditRiskPredictor on reading
      `[0]` of the missing `prediction`. */
  lemma ErrorReply(message: string)
    ensures var o := Response(false, Some(ErrorBody(message)));
      && PredictionForm.Validate(o) == PredictionForm.Rejected(PredictionForm.RequestFailed)
      && CreditRiskPredictor.ResultText(o) == CreditRiskPredictor.ErrorText
  {
  }

  /** A network failure or a body that is not JSON fails in both. */
  lemma BothFailWithoutBody(ok: bool)
    ensures PredictionForm.Validate(NetworkFail).Rejected?
    ensures PredictionForm.Validate(Response(ok, None)).Rejected?
    ensures CreditRiskPredictor.ResultText(NetworkFail) == CreditRiskPredictor.ErrorText
    ensures CreditRiskPredictor.ResultText(Response(ok, None)) == CreditRiskPredictor.ErrorText
  {
  }
}
