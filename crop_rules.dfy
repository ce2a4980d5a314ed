/**
 * The client-side crop classifier `simulatePrediction`: an ordered list of
 * threshold rules over seven soil and climate readings, where the first rule
 * whose condition holds decides the crop and Maize is the fallback.
 */
module CropRules {

  /** The seven readings of the form, already parsed to numbers. */
  datatype Reading = Reading(
    nitrogen: real,
    phosphorus: real,
    potassium: real,
    temperature: real,
    humidity: real,
    ph: real,
    rainfall: real)

  /** A recommendation: crop name, confidence in percent, and a short description. */
  datatype Prediction = Prediction(crop: string, confidence: int, description: string)

  const Rice := Prediction("Rice", 98, "Requires heavy rainfall and clayey soil.")
  const Chickpea := Prediction("Chickpea", 92, "Winter crop, requires less water.")
  const Grapes := Prediction("Grapes", 95, "Requires high potassium levels.")
  const Jute := Prediction("Jute", 94, "Strong fiber crop, needs high humidity.")
  const Tea := Prediction("Tea", 89, "Prefers acidic soil and sloped land.")
  const Pigeonpeas := Prediction("Pigeonpeas", 91, "Drought resistant legume.")
  const Cotton := Prediction("Cotton", 93, "Nitrogen intensive, avoids water logging.")
  const Mothbeans := Prediction("Mothbeans", 88, "Extremely drought tolerant.")
  const Maize := Prediction("Maize", 85, "Versatile crop, suitable for moderate climates.")

  /** The classifier, written as the chain of guarded returns it is. */
  function SimulatePrediction(r: Reading): (p: Prediction)
    ensures p.confidence in {98, 92, 95, 94, 89, 91, 93, 88, 85}
    ensures 85 <= p.confidence <= 98
  {
    if r.rainfall > 200.0 then Rice
    else if r.temperature < 20.0 && r.humidity < 30.0 then Chickpea
    else if r.potassium > 50.0 && r.potassium > r.nitrogen then Grapes
    else if r.humidity > 80.0 && r.rainfall > 150.0 then Jute
    else if r.ph < 5.5 then Tea
    else if r.temperature > 30.0 && r.humidity < 50.0 then Pigeonpeas
    else if r.nitrogen > 100.0 then Cotton
    else if r.rainfall < 50.0 && r.temperature > 25.0 then Mothbeans
    else Maize
  }

  // ---------------------------------------------------------------------
  // The same classifier read as a decision list: a table of rules indexed
  // in source order, and a search for the first rule that matches.
  // ---------------------------------------------------------------------

  /** Number of threshold rules before the fallback. */
  const RuleCount: nat := 8

  /** The condition of rule `k` (0-based, in source order). */
  predicate Matches(k: nat, r: Reading)
    requires k < RuleCount
  {
    match k
    case 0 => r.rainfall > 200.0
    case 1 => r.temperature < 20.0 && r.humidity < 30.0
    case 2 => r.potassium > 50.0 && r.potassium > r.nitrogen
    case 3 => r.humidity > 80.0 && r.rainfall > 150.0
    case 4 => r.ph < 5.5
    case 5 => r.temperature > 30.0 && r.humidity < 50.0
    case 6 => r.nitrogen > 100.0
    case _ => r.rainfall < 50.0 && r.temperature > 25.0
  }

  /** The record returned by rule `k`; index `RuleCount` is the fallback. */
  function RuleResult(k: nat): Prediction
    requires k <= RuleCount
  {
    match k
    case 0 => Rice
    case 1 => Chickpea
    case 2 => Grapes
    case 3 => Jute
    case 4 => Tea
    case 5 => Pigeonpeas
    case 6 => Cotton
    case 7 => Mothbeans
    case _ => Maize
  }

  /** No rule's condition holds of `r`. */
  predicate NoRuleMatches(r: Reading) {
    forall j :: 0 <= j < RuleCount ==> !Matches(j, r)
  }

  /**
   * The index of the first rule at or after `k` whose condition holds of `r`,
   * or `RuleCount` when there is none.
   */
  function FirstMatchFrom(k: nat, r: Reading): (i: nat)
    requires k <= RuleCount
    ensures k <= i <= RuleCount
    ensures i < RuleCount ==> Matches(i, r)
    ensures forall j :: k <= j < i ==> !Matches(j, r)
    decreases RuleCount - k
  {
    if k == RuleCount then RuleCount
    else if Matches(k, r) then k
    else FirstMatchFrom(k + 1, r)
  }

  /** The decision-list reading of the classifier. */
  function DecisionList(r: Reading): Prediction {
    RuleResult(FirstMatchFrom(0, r))
  }

  /** Distinct rules return distinct records. */
  lemma RuleResultInjective(i: nat, j: nat)
    requires i <= RuleCount && j <= RuleCount
    ensures RuleResult(i) == RuleResult(j) <==> i == j
  {
  }

  /** The chain of guarded returns is exactly the first-match decision list. */
  lemma SimulateIsDecisionList(r: Reading)
    ensures SimulatePrediction(r) == DecisionList(r)
  {
  }

  /** When rule `k` holds and no earlier one does, rule `k` decides the result. */
  lemma FirstMatchWins(r: Reading, k: nat)
    requires k < RuleCount && Matches(k, r)
    requires forall j :: 0 <= j < k ==> !Matches(j, r)
    ensures SimulatePrediction(r) == RuleResult(k)
  {
    SimulateIsDecisionList(r);
    var i := FirstMatchFrom(0, r);
    assert i == k;
  }

  /** When an earlier rule holds, a later rule's record is never returned. */
  lemma EarlierRuleWins(r: Reading, i: nat, j: nat)
    requires i < j <= RuleCount && Matches(i, r)
    ensures SimulatePrediction(r) != RuleResult(j)
  {
  }

  /** The result is Maize exactly when none of the eight conditions holds. */
  lemma FallbackIffNoRuleMatches(r: Reading)
    ensures SimulatePrediction(r) == Maize <==> NoRuleMatches(r)
  {
    SimulateIsDecisionList(r);
    var m := FirstMatchFrom(0, r);
    RuleResultInjective(m, RuleCount);
    if m < RuleCount {
      assert Matches(m, r);
    }
  }

  /** Heavy rain decides on its own: the other six readings do not matter. */
  lemma HeavyRainIsRice(r: Reading)
    requires r.rainfall > 200.0
    ensures SimulatePrediction(r) == Rice && SimulatePrediction(r).confidence == 98
  {
  }

  /** Rainfall over 200 together with acidic soil yields Rice, not Tea. */
  lemma RainBeatsAcidity(r: Reading)
    requires r.rainfall > 200.0 && r.ph < 5.5
    ensures SimulatePrediction(r) == Rice && SimulatePrediction(r) != Tea
  {
  }

  /** The potassium rule comes before the humidity-and-rain rule: Grapes, not Jute. */
  lemma PotassiumBeatsHumidity(r: Reading)
    requires r.rainfall <= 200.0
    requires r.potassium > 50.0 && r.potassium > r.nitrogen
    requires r.humidity > 80.0 && r.rainfall > 150.0
    ensures SimulatePrediction(r) == Grapes && SimulatePrediction(r) != Jute
  {
  }

  /** Phosphorus is read but never compared: changing it changes nothing. */
  lemma PhosphorusIrrelevant(r: Reading, phosphorus: real)
    ensures SimulatePrediction(r.(phosphorus := phosphorus)) == SimulatePrediction(r)
  {
  }
}
