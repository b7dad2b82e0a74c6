/** Concrete cases on the shipped catalog: the worked examples of the scoring
    rules, the first-match and gap behaviour of the evaluator, and the
    overview page for one glucose result. */
module Scenarios {
  import opened Types
  import opened Catalog
  import opened HealthLogic
  import opened BiomarkerList
  import opened Dashboard

  /** A 30-year-old of 175 cm and 70 kg: BMI about 22.86, inside the band. */
  const Adult := UserProfile(Some(30.0), Male, Some(175.0), Some(70.0), None)

  /** A 40-year-old of 200 cm and 100 kg: BMI exactly 25. */
  const Forty := UserProfile(Some(40.0), Female, Some(200.0), Some(100.0), None)

  function Glucose(value: real): BiomarkerResult {
    BiomarkerResult("fasting_glucose", value, "2024-01-01")
  }

  lemma GlucoseIsFirst()
    ensures Find(Biomarkers, "fasting_glucose") == Some(FastingGlucose)
  {
    assert Biomarkers[0] == FastingGlucose;
  }

  /** BMI of 175 cm and 70 kg is 70 / 1.75^2; a zero height or weight gives
      the 0 sentinel. */
  lemma BmiExamples()
    ensures CalculateBmi(Some(175.0), Some(70.0)) == 70.0 / (1.75 * 1.75)
    ensures 22.85 < CalculateBmi(Some(175.0), Some(70.0)) < 22.86
    ensures CalculateBmi(Some(0.0), Some(70.0)) == 0.0
    ensures CalculateBmi(Some(175.0), Some(0.0)) == 0.0
    ensures CalculateBmi(None, Some(70.0)) == 0.0
  {
  }

  /** No results and a BMI inside the band: the full score, and the
      biological age equals the age. */
  lemma EmptyResults()
    ensures HealthScore(Biomarkers, [], Adult) == 100
    ensures BiologicalAge(Biomarkers, [], Adult) == 30.0
  {
    assert BmiExcess(Adult) == 0.0;
    assert Round(300.0) == 300;
  }

  /** 70 mg/dL lies in both the "Hypoglycemia" range (max 70) and the normal
      range (min 70); the first one listed wins, so it is critical. */
  lemma GlucoseSeventyIsHypoglycemia()
    ensures InRange(70.0, FastingGlucose.ranges[0]) && InRange(70.0, FastingGlucose.ranges[1])
    ensures Evaluate(70.0, FastingGlucose) == Some(FastingGlucose.ranges[0])
    ensures FastingGlucose.ranges[0].level == Critical
  {
  }

  /** 130 mg/dL is in the "Diabetes" range; 80 in the normal one. */
  lemma GlucoseLevels()
    ensures Evaluate(130.0, FastingGlucose) == Some(FastingGlucose.ranges[3])
    ensures FastingGlucose.ranges[3].level == High && FastingGlucose.ranges[3].labelKey == "Diabetes"
    ensures Evaluate(80.0, FastingGlucose) == Some(FastingGlucose.ranges[1])
    ensures FastingGlucose.ranges[1].level == Optimal
  {
  }

  /** Values between two declared ranges match none: 99.5 mg/dL of glucose
      and an HbA1c of 5.65 %. */
  lemma GapValuesUnmatched()
    ensures Evaluate(99.5, FastingGlucose).None?
    ensures Evaluate(5.65, Hba1c).None?
  {
    RangesAscendingPart1();
    GapUnmatched(FastingGlucose, 1, 99.5);
    GapUnmatched(Hba1c, 0, 5.65);
  }

  /** The 30-year-old's BMI lies inside the band: no penalty. */
  lemma AdultInBand()
    ensures BmiExcess(Adult) == 0.0
  {
    var bmi := CalculateBmi(Adult.heightCm, Adult.weightKg);
    assert bmi == 70.0 / (1.75 * 1.75);
  }

  /** The 40-year-old's BMI is exactly 25: no adjustment. */
  lemma FortyInBand()
    ensures BmiExcess(Forty) == 0.0
  {
    assert CalculateBmi(Forty.heightCm, Forty.weightKg) == 25.0;
  }

  /** A single result contributes its own weight. */
  lemma TotalSingle(catalog: seq<BiomarkerDefinition>, acc: Accumulator, r: BiomarkerResult)
    ensures Total(catalog, acc, [r]) == Contribution(catalog, acc, r)
  {
    assert [r][..0] == [];
  }

  /** The catalog looks glucose up to the shipped entry. The scenarios below
      are proved for every such catalog and then for the shipped one. */
  predicate ShipsGlucose(catalog: seq<BiomarkerDefinition>) {
    Find(catalog, "fasting_glucose") == Some(FastingGlucose)
  }

  /** A glucose result evaluating to the k-th glucose range has that range's
      level. */
  lemma GlucoseLevel(catalog: seq<BiomarkerDefinition>, value: real, k: nat)
    requires ShipsGlucose(catalog)
    requires k < |FastingGlucose.ranges|
    requires Evaluate(value, FastingGlucose) == Some(FastingGlucose.ranges[k])
    ensures ResultLevel(catalog, Glucose(value)) == Some(FastingGlucose.ranges[k].level)
  {
  }

  lemma HighGlucoseScoreIn(catalog: seq<BiomarkerDefinition>)
    requires ShipsGlucose(catalog)
    ensures HealthScore(catalog, [Glucose(130.0)], Adult) == 92
  {
    GlucoseLevels();
    GlucoseLevel(catalog, 130.0, 3);
    TotalSingle(catalog, Deductions, Glucose(130.0));
    AdultInBand();
    assert RawScore(catalog, [Glucose(130.0)], Adult) == 92.0;
  }

  /** One glucose result of 130 takes 8 points off: the score is 92. */
  lemma HighGlucoseScore()
    ensures HealthScore(Biomarkers, [Glucose(130.0)], Adult) == 92
  {
    GlucoseIsFirst();
    HighGlucoseScoreIn(Biomarkers);
  }

  lemma OptimalGlucoseScoreIn(catalog: seq<BiomarkerDefinition>)
    requires ShipsGlucose(catalog)
    ensures RawScore(catalog, [Glucose(80.0)], Adult) == 101.0
    ensures HealthScore(catalog, [Glucose(80.0)], Adult) == 100
  {
    GlucoseLevels();
    GlucoseLevel(catalog, 80.0, 1);
    TotalSingle(catalog, Deductions, Glucose(80.0));
    AdultInBand();
  }

  /** One optimal glucose result earns a bonus point: 101, capped at 100. */
  lemma OptimalGlucoseScore()
    ensures RawScore(Biomarkers, [Glucose(80.0)], Adult) == 101.0
    ensures HealthScore(Biomarkers, [Glucose(80.0)], Adult) == 100
  {
    GlucoseIsFirst();
    OptimalGlucoseScoreIn(Biomarkers);
  }

  lemma LowGlucoseAdjustmentIn(catalog: seq<BiomarkerDefinition>)
    requires ShipsGlucose(catalog)
    ensures ResultLevel(catalog, Glucose(60.0)) == Some(Critical)
    ensures Total(catalog, BioAge, [Glucose(60.0)]) == 3.0
  {
    assert Evaluate(60.0, FastingGlucose) == Some(FastingGlucose.ranges[0]);
    GlucoseLevel(catalog, 60.0, 0);
    TotalSingle(catalog, BioAge, Glucose(60.0));
  }

  /** A glucose of 60 is critical and adds three years. */
  lemma LowGlucoseAdjustment()
    ensures ResultLevel(Biomarkers, Glucose(60.0)) == Some(Critical)
    ensures Total(Biomarkers, BioAge, [Glucose(60.0)]) == 3.0
  {
    GlucoseIsFirst();
    LowGlucoseAdjustmentIn(Biomarkers);
  }

  lemma CriticalResultAddsThreeYearsIn(catalog: seq<BiomarkerDefinition>)
    requires ShipsGlucose(catalog)
    ensures BiologicalAge(catalog, [Glucose(60.0)], Forty) == 43.0
  {
    LowGlucoseAdjustmentIn(catalog);
    FortyInBand();
    var raw := RawBiologicalAge(catalog, [Glucose(60.0)], Forty);
    assert raw == 43.0;
    assert Round(raw * 10.0) == 430;
  }

  /** Age 40, BMI exactly 25 (no adjustment) and one critical result: 43. */
  lemma CriticalResultAddsThreeYears()
    ensures BiologicalAge(Biomarkers, [Glucose(60.0)], Forty) == 43.0
  {
    GlucoseIsFirst();
    CriticalResultAddsThreeYearsIn(Biomarkers);
  }

  /** The glucose result of 130 is flagged with the "Diabetes" range. */
  lemma HighGlucoseFlagged(catalog: seq<BiomarkerDefinition>)
    requires ShipsGlucose(catalog)
    ensures OutOfRange(catalog, [Glucose(130.0)])
            == [Flagged(FastingGlucose, Glucose(130.0), FastingGlucose.ranges[3])]
  {
    GlucoseLevels();
    var f := Flagged(FastingGlucose, Glucose(130.0), FastingGlucose.ranges[3]);
    assert FlagOf(catalog, Glucose(130.0)) == Some(f);
    assert [Glucose(130.0)][1..] == [];
  }

  lemma DashboardWithHighGlucoseIn(catalog: seq<BiomarkerDefinition>)
    requires ShipsGlucose(catalog)
    ensures var page := Render(catalog, Adult, [Glucose(130.0)]);
            && page.Overview?
            && page.score == 92
            && page.scoreBand == Excellent
            && |page.flagged| == 1
            && page.flagged[0].range.labelKey == "Diabetes"
            && !page.addMoreHint
  {
    HighGlucoseScoreIn(catalog);
    HighGlucoseFlagged(catalog);
  }

  /** The dashboard of the 30-year-old with a glucose of 130: the result is
      listed, and the score band is "excellent". */
  lemma DashboardWithHighGlucose()
    ensures var page := Render(Biomarkers, Adult, [Glucose(130.0)]);
            && page.Overview?
            && page.score == 92
            && page.scoreBand == Excellent
            && |page.flagged| == 1
            && page.flagged[0].range.labelKey == "Diabetes"
            && !page.addMoreHint
  {
    GlucoseIsFirst();
    DashboardWithHighGlucoseIn(Biomarkers);
  }

  /** A profile without weight only gets the welcome prompt. */
  lemma IncompleteProfileWelcome()
    ensures Render(Biomarkers, Adult.(weightKg := None), []) == Welcome
    ensures Render(Biomarkers, Adult.(age := Some(0.0)), []) == Welcome
  {
  }
}
