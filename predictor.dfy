/** The outcome predictor page: a case is described by three text fields,
    a mock score is computed from keyword rules with a random fallback,
    and the score is shown together with a colour and a verdict text that
    are chosen by the same thresholds. */
module Predictor {
  import opened Wrappers
  import opened Text

  /** The value of `Math.floor(Math.random() * 60)`, supplied by the caller. */
  type Roll = k: int | 0 <= k < 60

  /** The three form fields the handler reads. */
  datatype CaseInput = CaseInput(caseType: string, caseDescription: string, relevantLaws: string)

  /** The handler's guard: each of the three fields is a non-empty string
      (the empty string is the only falsy string). The relevant-laws field
      is required here although its label calls it optional. */
  predicate IsComplete(c: CaseInput)
  {
    c.caseType != "" && c.caseDescription != "" && c.relevantLaws != ""
  }

  // ---------------------------------------------------------------------
  // Scoring
  // ---------------------------------------------------------------------

  /** A contract case whose description mentions a breach, in any letter case. */
  predicate BreachRule(c: CaseInput)
  {
    c.caseType == "contract" && Contains(Lower(c.caseDescription), "breach")
  }

  /** A criminal case whose description mentions guilt, in any letter case. */
  predicate GuiltyRule(c: CaseInput)
  {
    c.caseType == "criminal" && Contains(Lower(c.caseDescription), "guilty")
  }

  /** A property case whose relevant laws (not its description) name land acquisition. */
  predicate LandAcquisitionRule(c: CaseInput)
  {
    c.caseType == "property" && Contains(Lower(c.relevantLaws), "land acquisition")
  }

  predicate AnyRule(c: CaseInput)
  {
    BreachRule(c) || GuiltyRule(c) || LandAcquisitionRule(c)
  }

  /** The mock prediction: the first keyword rule that fires decides the
      score, otherwise the roll does. Every score lies in [20, 79]. */
  function Score(c: CaseInput, roll: Roll): (score: int)
    ensures 20 <= score < 80
  {
    if BreachRule(c) then 75
    else if GuiltyRule(c) then 20
    else if LandAcquisitionRule(c) then 60
    else roll + 20
  }

  /** The rules need three different case types, so at most one fires. */
  lemma RulesExclusive(c: CaseInput)
    ensures !(BreachRule(c) && GuiltyRule(c))
    ensures !(BreachRule(c) && LandAcquisitionRule(c))
    ensures !(GuiltyRule(c) && LandAcquisitionRule(c))
  {
  }

  /** Each rule fixes its score whatever the roll; without a rule the score
      is the roll shifted by 20. */
  lemma RuleScores(c: CaseInput, roll: Roll)
    ensures BreachRule(c) ==> Score(c, roll) == 75
    ensures GuiltyRule(c) ==> Score(c, roll) == 20
    ensures LandAcquisitionRule(c) ==> Score(c, roll) == 60
    ensures !AnyRule(c) ==> Score(c, roll) == roll + 20
  {
  }

  /** The case type is compared exactly: any case type other than the three
      rule types, including "family", "corporate", "intellectual_property"
      and a capitalised "Contract", falls back to the roll. */
  lemma OtherCaseTypesFallBack(c: CaseInput, roll: Roll)
    requires c.caseType != "contract" && c.caseType != "criminal" && c.caseType != "property"
    ensures !AnyRule(c) && Score(c, roll) == roll + 20
  {
  }

  /** The roll affects the score exactly when no rule fires. */
  lemma RollMattersIffNoRule(c: CaseInput)
    ensures (forall k1: Roll, k2: Roll :: Score(c, k1) == Score(c, k2)) <==> AnyRule(c)
  {
    if !AnyRule(c) {
      assert Score(c, 0) != Score(c, 1);
    }
  }

  /** On the fallback path the reachable scores are exactly 20..79: the
      upper end 80 of the advertised "20-80%" never occurs. */
  lemma FallbackScores(c: CaseInput, score: int)
    requires !AnyRule(c)
    ensures (exists roll: Roll :: Score(c, roll) == score) <==> 20 <= score <= 79
  {
    if 20 <= score <= 79 {
      var roll: Roll := score - 20;
      assert Score(c, roll) == score;
    }
  }

  // ---------------------------------------------------------------------
  // Banding
  // ---------------------------------------------------------------------

  /** The qualitative reading of a prediction (`null` means none yet). */
  datatype Band = Awaiting | Low | Moderate | High

  /** The band of a prediction by interval: below 40, 40 up to 70, 70 and above. */
  function BandOf(value: Option<int>): Band
  {
    match value
    case None => Awaiting
    case Some(x) => if x < 40 then Low else if x < 70 then Moderate else High
  }

  function ColorOf(b: Band): string
  {
    match b
    case Awaiting => "bg-gray-500"
    case High => "bg-green-500"
    case Moderate => "bg-yellow-500"
    case Low => "bg-red-500"
  }

  function TextOf(b: Band): string
  {
    match b
    case Awaiting => "Awaiting analysis"
    case High => "High Likelihood of Success"
    case Moderate => "Moderate Likelihood of Success"
    case Low => "Low Likelihood of Success"
  }

  /** `getPredictionColor`: the colour of the prediction's band. */
  function PredictionColor(value: Option<int>): (color: string)
    ensures color == ColorOf(BandOf(value))
  {
    if value.None? then "bg-gray-500"
    else if value.value >= 70 then "bg-green-500"
    else if value.value >= 40 then "bg-yellow-500"
    else "bg-red-500"
  }

  /** `getPredictionText`: the verdict text of the prediction's band. */
  function PredictionText(value: Option<int>): (text: string)
    ensures text == TextOf(BandOf(value))
  {
    if value.None? then "Awaiting analysis"
    else if value.value >= 70 then "High Likelihood of Success"
    else if value.value >= 40 then "Moderate Likelihood of Success"
    else "Low Likelihood of Success"
  }

  /** Colour and text distinguish the same predictions: two predictions
      get the same colour exactly when they get the same text. */
  lemma ColorAndTextAgree(v: Option<int>, w: Option<int>)
    ensures PredictionColor(v) == PredictionColor(w) <==> PredictionText(v) == PredictionText(w)
    ensures PredictionColor(v) == PredictionColor(w) <==> BandOf(v) == BandOf(w)
  {
  }

  /** The rule scores band as High (breach), Low (guilty) and Moderate
      (land acquisition). */
  lemma RuleBands(c: CaseInput, roll: Roll)
    ensures BreachRule(c) ==> PredictionText(Some(Score(c, roll))) == "High Likelihood of Success"
    ensures GuiltyRule(c) ==> PredictionText(Some(Score(c, roll))) == "Low Likelihood of Success"
    ensures LandAcquisitionRule(c) ==> PredictionText(Some(Score(c, roll))) == "Moderate Likelihood of Success"
  {
  }

  // ---------------------------------------------------------------------
  // Worked cases
  // ---------------------------------------------------------------------

  /** A contract dispute mentioning "Breach" in capitals scores 75 (High). */
  lemma ContractBreachCase(roll: Roll)
    ensures var c := CaseInput("contract", "Contractor Breach of agreement", "Indian Contract Act");
      IsComplete(c) && Score(c, roll) == 75 && BandOf(Some(Score(c, roll))) == High
  {
    var c := CaseInput("contract", "Contractor Breach of agreement", "Indian Contract Act");
    var d := Lower(c.caseDescription);
    assert d[11] == LowerChar('B') == 'b';
    assert d[11..17] == "breach";
    assert OccursAt(d, "breach", 11);
    ContainsIffOccurs(d, "breach");
  }

  /** A criminal case whose description admits guilt scores 20 (Low). */
  lemma CriminalGuiltyCase(roll: Roll)
    ensures var c := CaseInput("criminal", "defendant pled guilty", "Indian Penal Code");
      IsComplete(c) && Score(c, roll) == 20 && BandOf(Some(Score(c, roll))) == Low
  {
    var c := CaseInput("criminal", "defendant pled guilty", "Indian Penal Code");
    var d := Lower(c.caseDescription);
    assert d[15..21] == "guilty";
    assert OccursAt(d, "guilty", 15);
    ContainsIffOccurs(d, "guilty");
  }

  /** The land-acquisition rule reads the relevant laws only: the phrase in
      the description of a property case does not fire it. */
  lemma LandRuleIgnoresDescription(description: string, laws: string, roll: Roll)
    requires !Contains(Lower(laws), "land acquisition")
    ensures Score(CaseInput("property", description, laws), roll) == roll + 20
  {
  }

  /** A property case with the phrase in its relevant laws scores 60 (Moderate). */
  lemma LandAcquisitionCase(roll: Roll)
    ensures var c := CaseInput("property", "dispute", "Land Acquisition Act");
      IsComplete(c) && Score(c, roll) == 60 && BandOf(Some(Score(c, roll))) == Moderate
  {
    var c := CaseInput("property", "dispute", "Land Acquisition Act");
    var l := Lower(c.relevantLaws);
    assert l[0..16] == "land acquisition";
    assert OccursAt(l, "land acquisition", 0);
    ContainsIffOccurs(l, "land acquisition");
    ContainsIffOccurs(Lower(c.caseDescription), "breach");
  }

  /** A submission that leaves the relevant laws empty never reaches the
      scoring rules, even when a rule would match it. */
  lemma EmptyLawsRejected(caseType: string, description: string)
    ensures !IsComplete(CaseInput(caseType, description, ""))
  {
  }

  // ---------------------------------------------------------------------
  // The page state
  // ---------------------------------------------------------------------

  /** The page's state: the three form fields, the shown prediction and the
      loading flag. */
  class OutcomePredictor {
    var caseType: string
    var caseDescription: string
    var relevantLaws: string
    var prediction: Option<int>
    var isLoading: bool

    /** While loading no prediction is shown, and a shown prediction is a score. */
    ghost predicate Valid()
      reads this
    {
      (isLoading ==> prediction.None?) && (prediction.Some? ==> 20 <= prediction.value < 80)
    }

    function Input(): CaseInput
      reads this
    {
      CaseInput(caseType, caseDescription, relevantLaws)
    }

    constructor ()
      ensures Valid()
      ensures Input() == CaseInput("", "", "") && prediction == None && !isLoading
    {
      caseType, caseDescription, relevantLaws := "", "", "";
      prediction, isLoading := None, false;
    }

    /** The case-type selector's change handler. */
    method SetCaseType(value: string)
      requires Valid()
      modifies this
      ensures Valid()
      ensures Input() == old(Input()).(caseType := value)
      ensures prediction == old(prediction) && isLoading == old(isLoading)
    {
      caseType := value;
    }

    /** The description field's change handler. */
    method SetCaseDescription(value: string)
      requires Valid()
      modifies this
      ensures Valid()
      ensures Input() == old(Input()).(caseDescription := value)
      ensures prediction == old(prediction) && isLoading == old(isLoading)
    {
      caseDescription := value;
    }

    /** The relevant-laws field's change handler. */
    method SetRelevantLaws(value: string)
      requires Valid()
      modifies this
      ensures Valid()
      ensures Input() == old(Input()).(relevantLaws := value)
      ensures prediction == old(prediction) && isLoading == old(isLoading)
    {
      relevantLaws := value;
    }

    /** The part of `handlePredictOutcome` before its delay: an incomplete
        form changes nothing; a complete one clears the prediction, raises
        the loading flag and hands on the fields as the handler saw them. */
    method Start() returns (submitted: Option<CaseInput>)
      requires Valid()
      modifies this
      ensures Valid()
      ensures Input() == old(Input())
      ensures !IsComplete(old(Input())) ==>
        submitted == None && prediction == old(prediction) && isLoading == old(isLoading)
      ensures IsComplete(old(Input())) ==>
        submitted == Some(old(Input())) && prediction == None && isLoading
    {
      if caseType == "" || caseDescription == "" || relevantLaws == "" {
        return None;
      }
      isLoading := true;
      prediction := None;
      submitted := Some(Input());
    }

    /** The part of `handlePredictOutcome` after its delay: the score of the
        submitted fields is shown and loading ends. */
    method Finish(submitted: CaseInput, roll: Roll)
      requires Valid()
      modifies this
      ensures Valid()
      ensures Input() == old(Input())
      ensures prediction == Some(Score(submitted, roll)) && !isLoading
    {
      var mockPrediction := 0;
      if submitted.caseType == "contract" && Contains(Lower(submitted.caseDescription), "breach") {
        mockPrediction := 75;
      } else if submitted.caseType == "criminal" && Contains(Lower(submitted.caseDescription), "guilty") {
        mockPrediction := 20;
      } else if submitted.caseType == "property" && Contains(Lower(submitted.relevantLaws), "land acquisition") {
        mockPrediction := 60;
      } else {
        mockPrediction := roll + 20;
      }
      prediction := Some(mockPrediction);
      isLoading := false;
    }

    /** `handlePredictOutcome` run to completion with no edits during the
        delay: a complete form ends with its score shown and loading off;
        an incomplete one changes nothing. */
    method HandlePredictOutcome(roll: Roll) returns (submitted: Option<CaseInput>)
      requires Valid()
      modifies this
      ensures Valid()
      ensures Input() == old(Input()) && !isLoading == (IsComplete(old(Input())) || !old(isLoading))
      ensures submitted == (if IsComplete(old(Input())) then Some(old(Input())) else None)
      ensures prediction == (if IsComplete(old(Input())) then Some(Score(old(Input()), roll)) else old(prediction))
    {
      submitted := Start();
      if submitted.Some? {
        Finish(submitted.value, roll);
      }
    }
  }
}
