/** `getRiskLevel` of PredictionForm: a threshold table from a prediction
    and a probability to one of four risk levels with a display colour. */
module Risk {

  datatype Level = Low | Moderate | High | VeryHigh

  /** The `level` string shown on screen. */
  function LevelName(l: Level): string {
    match l
    case Low => "Low"
    case Moderate => "Moderate"
    case High => "High"
    case VeryHigh => "Very High"
  }

  /** Severity order of the levels. */
  function Rank(l: Level): (k: nat)
    ensures k < 4
  {
    match l
    case Low => 0
    case Moderate => 1
    case High => 2
    case VeryHigh => 3
  }

  datatype RiskLevel = RiskLevel(level: Level, color: string)

  /** The colour of a level: greens to amber in the "no default" branch,
      reds in the "default" branch. */
  function Colour(noDefault: bool, l: Level): string {
    if noDefault then
      match l
      case Low => "#4CAF50"
      case Moderate => "#8BC34A"
      case High => "#FFC107"
      case VeryHigh => "#F44336"
    else
      match l
      case VeryHigh => "#C62828"
      case High => "#D32F2F"
      case Moderate => "#F44336"
      case Low => "#E57373"
  }

  /** `getRiskLevel(prediction, probability)`. A prediction of exactly 0 uses
      the "no default" thresholds (strict `<` upper bounds); every other
      prediction uses the "default" thresholds (strict `>` lower bounds). */
  function GetRiskLevel(prediction: real, probability: real): (r: RiskLevel)
    ensures prediction == 0.0 ==>
      && (r.level == Low <==> probability < 0.1)
      && (r.level == Moderate <==> 0.1 <= probability < 0.3)
      && (r.level == High <==> 0.3 <= probability < 0.5)
      && (r.level == VeryHigh <==> 0.5 <= probability)
    ensures prediction != 0.0 ==>
      && (r.level == VeryHigh <==> probability > 0.8)
      && (r.level == High <==> 0.6 < probability <= 0.8)
      && (r.level == Moderate <==> 0.4 < probability <= 0.6)
      && (r.level == Low <==> probability <= 0.4)
    ensures r.color == Colour(prediction == 0.0, r.level)
  {
    if prediction == 0.0 then
      if probability < 0.1 then RiskLevel(Low, "#4CAF50")
      else if probability < 0.3 then RiskLevel(Moderate, "#8BC34A")
      else if probability < 0.5 then RiskLevel(High, "#FFC107")
      else RiskLevel(VeryHigh, "#F44336")
    else
      if probability > 0.8 then RiskLevel(VeryHigh, "#C62828")
      else if probability > 0.6 then RiskLevel(High, "#D32F2F")
      else if probability > 0.4 then RiskLevel(Moderate, "#F44336")
      else RiskLevel(Low, "#E57373")
  }

  /** Within each branch a larger probability never gives a lower level. */
  lemma Monotone(prediction: real, p: real, q: real)
    requires p <= q
    ensures Rank(GetRiskLevel(prediction, p).level) <= Rank(GetRiskLevel(prediction, q).level)
  {
  }

  /** The two branches meet on one colour: "#F44336" is Very High when no
      default is predicted and Moderate when a default is, so a colour alone
      does not identify the level. */
  lemma SharedColour()
    ensures GetRiskLevel(0.0, 0.5).color == GetRiskLevel(1.0, 0.5).color
    ensures GetRiskLevel(0.0, 0.5).level == VeryHigh
    ensures GetRiskLevel(1.0, 0.5).level == Moderate
  {
  }

  /** Within one branch the colour does identify the level. */
  lemma ColourDeterminesLevel(prediction: real, p: real, q: real)
    requires GetRiskLevel(prediction, p).color == GetRiskLevel(prediction, q).color
    ensures GetRiskLevel(prediction, p).level == GetRiskLevel(prediction, q).level
  {
  }
}
