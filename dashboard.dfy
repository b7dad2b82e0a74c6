/** The overview page: the profile gate, the three headline cards (health
    score, biological age, BMI) with their bands, and the list of results
    that need attention. */
module Dashboard {
  import opened Types
  import opened Catalog
  import opened HealthLogic

  // ---------------------------------------------------------------------
  // Profile gate

  /** The overview is shown only when age, height and weight are all present
      and non-zero; otherwise the page asks the user to complete the profile. */
  predicate ProfileComplete(profile: UserProfile): (complete: bool)
    ensures complete <==> Truthy(profile.age) && CalculateBmi(profile.heightCm, profile.weightKg) != 0.0
  {
    Truthy(profile.age) && Truthy(profile.heightCm) && Truthy(profile.weightKg)
  }

  // ---------------------------------------------------------------------
  // Results that need attention

  /** A result shown under "areas for improvement", with its catalog entry and
      the range it fell in. */
  datatype Flagged = Flagged(definition: BiomarkerDefinition, result: BiomarkerResult, range: BiomarkerRange)

  /** The entry for one result: present exactly when the result's id is in the
      catalog and its value falls in a borderline, high or critical range. */
  function FlagOf(catalog: seq<BiomarkerDefinition>, x: BiomarkerResult): (r: Option<Flagged>)
    ensures r.Some? <==> ResultLevel(catalog, x).Some? && Concerning(ResultLevel(catalog, x).value)
    ensures r.Some? ==> r.value.result == x
                        && Find(catalog, x.biomarkerId) == Some(r.value.definition)
                        && Evaluate(x.value, r.value.definition) == Some(r.value.range)
                        && Concerning(r.value.range.level)
  {
    match Find(catalog, x.biomarkerId)
    case None => None
    case Some(definition) =>
      match Evaluate(x.value, definition)
      case None => None
      case Some(range) => if Concerning(range.level) then Some(Flagged(definition, x, range)) else None
  }

  /** The flagged results, in the order of the result list. */
  function OutOfRange(catalog: seq<BiomarkerDefinition>, results: seq<BiomarkerResult>): (r: seq<Flagged>)
    ensures |r| <= |results|
    ensures forall f :: f in r ==> f.result in results && FlagOf(catalog, f.result) == Some(f)
    ensures forall x :: x in results && FlagOf(catalog, x).Some? ==> FlagOf(catalog, x).value in r
  {
    if |results| == 0 then []
    else
      var rest := OutOfRange(catalog, results[1..]);
      assert forall x :: x in results <==> x == results[0] || x in results[1..];
      match FlagOf(catalog, results[0])
      case None => rest
      case Some(f) => [f] + rest
  }

  /** Flagging distributes over concatenation, so the list follows the order
      of the results. */
  lemma {:induction false} OutOfRangeDistributes(catalog: seq<BiomarkerDefinition>, a: seq<BiomarkerResult>, b: seq<BiomarkerResult>)
    ensures OutOfRange(catalog, a + b) == OutOfRange(catalog, a) + OutOfRange(catalog, b)
    decreases |a|
  {
    if |a| > 0 {
      assert (a + b)[1..] == a[1..] + b;
      OutOfRangeDistributes(catalog, a[1..], b);
    } else {
      assert a + b == b;
    }
  }

  /** Without flagged results no deduction is positive, so the results only
      ever add to the score. */
  lemma {:induction false} UnflaggedDeductionsNonPositive(catalog: seq<BiomarkerDefinition>, results: seq<BiomarkerResult>)
    requires forall x :: x in results ==> FlagOf(catalog, x).None?
    ensures Total(catalog, Deductions, results) <= 0.0
    decreases |results|
  {
    if |results| > 0 {
      var init := results[..|results| - 1];
      assert forall x :: x in init ==> x in results;
      assert results[|results| - 1] in results;
      UnflaggedDeductionsNonPositive(catalog, init);
    }
  }

  /** An empty "areas for improvement" list together with a BMI inside
      [18.5, 25] gives the full score of 100. */
  lemma NothingFlaggedFullScore(catalog: seq<BiomarkerDefinition>, results: seq<BiomarkerResult>, profile: UserProfile)
    requires OutOfRange(catalog, results) == []
    requires BmiExcess(profile) == 0.0
    ensures HealthScore(catalog, results, profile) == 100
  {
    UnflaggedDeductionsNonPositive(catalog, results);
  }

  /** Conversely, a score below 100 with a BMI inside [18.5, 25] means the
      list has an entry. */
  lemma ImperfectScoreHasFlag(catalog: seq<BiomarkerDefinition>, results: seq<BiomarkerResult>, profile: UserProfile)
    requires BmiExcess(profile) == 0.0
    requires HealthScore(catalog, results, profile) < 100
    ensures |OutOfRange(catalog, results)| > 0
  {
    if OutOfRange(catalog, results) == [] {
      NothingFlaggedFullScore(catalog, results, profile);
    }
  }

  /** The hint to add more exams: shown when nothing is flagged and fewer than
      five results are recorded. */
  function ShowAddMoreHint(flagged: seq<Flagged>, results: seq<BiomarkerResult>): (show: bool)
    ensures show ==> |flagged| == 0 && |results| <= 4
    ensures !show ==> |flagged| > 0 || |results| >= 5
  {
    |flagged| == 0 && |results| < 5
  }

  // ---------------------------------------------------------------------
  // Bands

  datatype ScoreBand = Excellent | Good | Fair | Poor

  /** Rank of a band, 0 for the best. */
  function ScoreBandRank(band: ScoreBand): nat {
    match band
    case Excellent => 0
    case Good => 1
    case Fair => 2
    case Poor => 3
  }

  /** The caption under the health score: 90 and above is excellent, 75 to
      89 good, 50 to 74 fair, below 50 poor. */
  function ScoreBandOf(score: int): (band: ScoreBand)
    ensures band == Excellent <==> score >= 90
    ensures band == Good <==> 75 <= score < 90
    ensures band == Fair <==> 50 <= score < 75
    ensures band == Poor <==> score < 50
  {
    if score >= 90 then Excellent
    else if score >= 75 then Good
    else if score >= 50 then Fair
    else Poor
  }

  /** A higher score never gets a worse caption. */
  lemma ScoreBandMonotone(s: int, t: int)
    requires s <= t
    ensures ScoreBandRank(ScoreBandOf(t)) <= ScoreBandRank(ScoreBandOf(s))
  {
  }

  datatype BmiBand = Underweight | NormalWeight | Overweight | Obese

  /** The BMI caption: below 18.5 underweight, below 25 normal, below 30
      overweight, otherwise obese. A BMI of 0 (not computable) never reaches
      this page, because the profile gate needs height and weight. */
  function BmiBandOf(bmi: real): (band: BmiBand)
    ensures band == Underweight <==> bmi < 18.5
    ensures band == NormalWeight <==> 18.5 <= bmi < 25.0
    ensures band == Overweight <==> 25.0 <= bmi < 30.0
    ensures band == Obese <==> bmi >= 30.0
  {
    if bmi < 18.5 then Underweight
    else if bmi < 25.0 then NormalWeight
    else if bmi < 30.0 then Overweight
    else Obese
  }

  /** The "normal" caption and the penalty-free BMI band agree except at a
      BMI of exactly 25, which carries no penalty but is captioned
      overweight. */
  lemma BmiBandMatchesPenalty(profile: UserProfile)
    requires Truthy(profile.heightCm) && Truthy(profile.weightKg)
    ensures var bmi := CalculateBmi(profile.heightCm, profile.weightKg);
            BmiExcess(profile) == 0.0 <==> BmiBandOf(bmi) == NormalWeight || bmi == 25.0
  {
  }

  // ---------------------------------------------------------------------
  // Biological age versus chronological age

  /** The comparison shown on the age card: the signed gap and its
      direction. */
  datatype AgeComparison = AgeComparison(gap: real, isYounger: bool)

  /** ageDiff = bioAge - age; the card reads "younger" exactly when the gap is
      negative and shows its magnitude. */
  function CompareAges(bioAge: real, age: real): (c: AgeComparison)
    ensures c.isYounger <==> bioAge < age
    ensures age + c.gap == bioAge
    ensures c.isYounger ==> Abs(c.gap) == age - bioAge
    ensures !c.isYounger ==> Abs(c.gap) == bioAge - age
  {
    var ageDiff := bioAge - age;
    AgeComparison(ageDiff, ageDiff < 0.0)
  }

  /** Magnitude of the gap, as `Math.abs`. */
  function Abs(x: real): (m: real)
    ensures m >= 0.0 && (m == x || m == -x)
  {
    if x < 0.0 then -x else x
  }

  /** Without an optimal result no age adjustment is negative. */
  lemma {:induction false} NoOptimalAdjustmentNonNegative(catalog: seq<BiomarkerDefinition>, results: seq<BiomarkerResult>)
    requires forall x :: x in results ==> ResultLevel(catalog, x) != Some(Optimal)
    ensures Total(catalog, BioAge, results) >= 0.0
    decreases |results|
  {
    if |results| > 0 {
      var init := results[..|results| - 1];
      assert forall x :: x in init ==> x in results;
      assert results[|results| - 1] in results;
      NoOptimalAdjustmentNonNegative(catalog, init);
    }
  }

  /** Rounding to one decimal never takes a value below an age of at least
      one year that already has at most one decimal. */
  lemma RoundAgeKeepsLowerBound(age: real, raw: real)
    requires age >= 1.0 && IsTenth(age) && raw >= age
    ensures RoundAge(raw) >= age
  {
    var a10 := age * 10.0;
    var n := a10.Floor;
    assert n as real == a10;
    assert (a10 + 0.5).Floor == n;
    RoundMonotone(a10, raw * 10.0);
    var tenths := Round(raw * 10.0);
    assert tenths >= n;
    assert tenths as real / 10.0 >= n as real / 10.0;
  }

  /** For an age given to at most one decimal, the card can only read
      "younger" when some recorded result is optimal: every other level, and
      the BMI, only add years. */
  lemma YoungerNeedsOptimalResult(catalog: seq<BiomarkerDefinition>, results: seq<BiomarkerResult>, profile: UserProfile)
    requires Truthy(profile.age) && profile.age.value >= 1.0 && IsTenth(profile.age.value)
    requires CompareAges(BiologicalAge(catalog, results, profile), profile.age.value).isYounger
    ensures exists x :: x in results && ResultLevel(catalog, x) == Some(Optimal)
  {
    if forall x :: x in results ==> ResultLevel(catalog, x) != Some(Optimal) {
      NoOptimalAdjustmentNonNegative(catalog, results);
      RoundAgeKeepsLowerBound(profile.age.value, RawBiologicalAge(catalog, results, profile));
      assert false;
    }
  }

  // ---------------------------------------------------------------------
  // The page

  /** What the page shows: the welcome prompt, or the overview. */
  datatype Page =
    | Welcome
    | Overview(
        score: int,
        scoreBand: ScoreBand,
        bioAge: real,
        comparison: AgeComparison,
        bmi: real,
        bmiBand: BmiBand,
        flagged: seq<Flagged>,
        addMoreHint: bool)

  /** The dashboard for a profile and a result list. */
  function Render(catalog: seq<BiomarkerDefinition>, profile: UserProfile, results: seq<BiomarkerResult>): (page: Page)
    ensures page.Welcome? <==> !ProfileComplete(profile)
    ensures page.Overview? ==>
              && 0 <= page.score <= 100
              && page.bioAge >= 1.0
              && page.bmi * ((profile.heightCm.value / 100.0) * (profile.heightCm.value / 100.0)) == profile.weightKg.value
              && (page.comparison.isYounger <==> page.bioAge < profile.age.value)
              && (page.addMoreHint <==> |page.flagged| == 0 && |results| < 5)
              && (|page.flagged| == 0 && BmiExcess(profile) == 0.0 ==> page.score == 100)
    ensures page.Overview? ==>
              && page.score == HealthScore(catalog, results, profile)
              && page.scoreBand == ScoreBandOf(page.score)
              && page.bioAge == BiologicalAge(catalog, results, profile)
              && page.bmi == CalculateBmi(profile.heightCm, profile.weightKg)
              && page.bmiBand == BmiBandOf(page.bmi)
              && page.flagged == OutOfRange(catalog, results)
              && page.comparison == CompareAges(page.bioAge, profile.age.value)
              && page.addMoreHint == ShowAddMoreHint(page.flagged, results)
  {
    if !ProfileComplete(profile) then Welcome
    else
      var score := HealthScore(catalog, results, profile);
      var bioAge := BiologicalAge(catalog, results, profile);
      var bmi := CalculateBmi(profile.heightCm, profile.weightKg);
      var flagged := OutOfRange(catalog, results);
      assert |flagged| == 0 && BmiExcess(profile) == 0.0 ==> score == 100 by {
        if |flagged| == 0 && BmiExcess(profile) == 0.0 {
          NothingFlaggedFullScore(catalog, results, profile);
        }
      }
      Overview(score, ScoreBandOf(score), bioAge, CompareAges(bioAge, profile.age.value),
               bmi, BmiBandOf(bmi), flagged, ShowAddMoreHint(flagged, results))
  }
}
