/** The scoring engine: BMI, the first-match range evaluator, the health score
    and the biological age. Each loop of the original is a method proved equal
    to a specification function; the properties are proved on the functions. */
module HealthLogic {
  import opened Types
  import opened Catalog

  // ---------------------------------------------------------------------
  // BMI

  /** Body-mass index, weight / height(m)^2; 0 is the "not computable"
      sentinel, returned exactly when height or weight is absent or zero. */
  function CalculateBmi(heightCm: Option<real>, weightKg: Option<real>): (bmi: real)
    ensures bmi == 0.0 <==> !(Truthy(heightCm) && Truthy(weightKg))
    ensures Truthy(heightCm) && Truthy(weightKg) ==>
              bmi * ((heightCm.value / 100.0) * (heightCm.value / 100.0)) == weightKg.value
  {
    if !Truthy(heightCm) || !Truthy(weightKg) then 0.0
    else
      var heightM := heightCm.value / 100.0;
      weightKg.value / (heightM * heightM)
  }

  /** How far the profile's BMI lies outside [18.5, 25]; 0 inside the band or
      when the BMI cannot be computed. Both the score penalty (x2) and the
      age adjustment (x0.5) are multiples of it. */
  function BmiExcess(profile: UserProfile): (excess: real)
    ensures excess >= 0.0
    ensures excess == 0.0 <==>
              !(Truthy(profile.heightCm) && Truthy(profile.weightKg))
              || 18.5 <= CalculateBmi(profile.heightCm, profile.weightKg) <= 25.0
    ensures var bmi := CalculateBmi(profile.heightCm, profile.weightKg);
            Truthy(profile.heightCm) && Truthy(profile.weightKg) ==>
              (bmi > 25.0 ==> excess == bmi - 25.0) && (bmi < 18.5 ==> excess == 18.5 - bmi)
  {
    if Truthy(profile.heightCm) && Truthy(profile.weightKg) then
      var bmi := CalculateBmi(profile.heightCm, profile.weightKg);
      (if bmi > 25.0 then bmi - 25.0 else 0.0) + (if bmi < 18.5 then 18.5 - bmi else 0.0)
    else 0.0
  }

  // ---------------------------------------------------------------------
  // Range evaluation

  /** Index of the first range at or after `k` that contains `value`. */
  function FirstMatchFrom(value: real, ranges: seq<BiomarkerRange>, k: nat): (r: Option<nat>)
    requires k <= |ranges|
    decreases |ranges| - k
    ensures r.Some? ==> k <= r.value < |ranges| && InRange(value, ranges[r.value])
    ensures r.Some? ==> forall j :: k <= j < r.value ==> !InRange(value, ranges[j])
    ensures r.None? ==> forall j :: k <= j < |ranges| ==> !InRange(value, ranges[j])
  {
    if k == |ranges| then None
    else if InRange(value, ranges[k]) then Some(k)
    else FirstMatchFrom(value, ranges, k + 1)
  }

  /** The range a value falls into: the first range in declaration order that
      contains it, or None when the value lies in no range. */
  function Evaluate(value: real, definition: BiomarkerDefinition): (r: Option<BiomarkerRange>)
    ensures r.Some? ==> exists k :: 0 <= k < |definition.ranges| && definition.ranges[k] == r.value
                                    && InRange(value, r.value)
                                    && forall j :: 0 <= j < k ==> !InRange(value, definition.ranges[j])
    ensures r.None? <==> forall range :: range in definition.ranges ==> !InRange(value, range)
  {
    match FirstMatchFrom(value, definition.ranges, 0)
    case Some(k) => Some(definition.ranges[k])
    case None => None
  }

  /** The evaluator as the original runs it: a scan with early return. */
  method EvaluateBiomarker(value: real, definition: BiomarkerDefinition) returns (r: Option<BiomarkerRange>)
    ensures r == Evaluate(value, definition)
  {
    var i := 0;
    while i < |definition.ranges|
      invariant 0 <= i <= |definition.ranges|
      invariant forall j :: 0 <= j < i ==> !InRange(value, definition.ranges[j])
    {
      var range := definition.ranges[i];
      var minMatch := range.min.None? || value >= range.min.value;
      var maxMatch := range.max.None? || value <= range.max.value;
      if minMatch && maxMatch {
        return Some(range);
      }
      i := i + 1;
    }
    return None;
  }

  /** With ascending ranges, a value strictly between one range's max and the
      next range's min matches no range at all. */
  lemma GapUnmatched(definition: BiomarkerDefinition, k: nat, value: real)
    requires AscendingRanges(definition.ranges)
    requires k + 1 < |definition.ranges|
    requires Linked(definition.ranges[k], definition.ranges[k + 1])
    requires definition.ranges[k].max.value < value < definition.ranges[k + 1].min.value
    ensures Evaluate(value, definition) == None
  {
    var rs := definition.ranges;
    forall j | 0 <= j < |rs|
      ensures !InRange(value, rs[j])
    {
      if j <= k {
        MaxAscending(rs, j, k);
      } else {
        MinAscending(rs, k + 1, j);
      }
    }
  }

  // ---------------------------------------------------------------------
  // Per-result contributions
  //
  // The original reads the module constant BIOMARKERS; here the catalog is a
  // parameter, so the properties below hold for every catalog, and the
  // concrete scenarios pass Catalog.Biomarkers.

  /** The level of a recorded result: None when its id is not in the catalog
      or its value falls in no range. */
  function ResultLevel(catalog: seq<BiomarkerDefinition>, result: BiomarkerResult): (r: Option<RiskLevel>)
    ensures r.Some? ==> exists d, range :: d in catalog && d.id == result.biomarkerId
                                           && range in d.ranges && InRange(result.value, range)
                                           && range.level == r.value
    ensures (forall d :: d in catalog ==> d.id != result.biomarkerId) ==> r.None?
    ensures r.Some? ==> && Find(catalog, result.biomarkerId).Some?
                        && Evaluate(result.value, Find(catalog, result.biomarkerId).value).Some?
                        && r.value == Evaluate(result.value, Find(catalog, result.biomarkerId).value).value.level
    ensures r.None? <==> Find(catalog, result.biomarkerId).None?
                         || forall range :: range in Find(catalog, result.biomarkerId).value.ranges ==> !InRange(result.value, range)
  {
    match Find(catalog, result.biomarkerId)
    case None => None
    case Some(definition) =>
      match Evaluate(result.value, definition)
      case None => None
      case Some(range) =>
        assert definition in catalog && range in definition.ranges;
        Some(range.level)
  }

  /** The two accumulators the calculators keep. */
  datatype Accumulator = Deductions | BioAge

  /** What a result of the given level adds to an accumulator: the health-score
      deduction (negative: a bonus) or the biological-age adjustment in years
      (negative: rejuvenation). */
  function Weight(acc: Accumulator, level: RiskLevel): (w: real)
    ensures w == 0.0 <==> level == Normal
    ensures w < 0.0 <==> level == Optimal
    ensures w > 0.0 <==> Concerning(level)
    ensures acc == Deductions ==> -1.0 <= w <= 15.0
    ensures acc == BioAge ==> -0.5 <= w <= 3.0
  {
    match (acc, level)
    case (Deductions, Borderline) => 3.0
    case (Deductions, High) => 8.0
    case (Deductions, Critical) => 15.0
    case (Deductions, Optimal) => -1.0
    case (BioAge, Borderline) => 0.5
    case (BioAge, High) => 1.5
    case (BioAge, Critical) => 3.0
    case (BioAge, Optimal) => -0.5
    case (_, Normal) => 0.0
  }

  /** A more severe level weighs more, in both accumulators. */
  lemma WeightGrowsWithSeverity(acc: Accumulator)
    ensures Weight(acc, Optimal) < Weight(acc, Normal) < Weight(acc, Borderline)
            < Weight(acc, High) < Weight(acc, Critical)
  {
  }

  /** What one result adds to an accumulator; unknown ids and unmatched values
      add nothing. */
  function Contribution(catalog: seq<BiomarkerDefinition>, acc: Accumulator, result: BiomarkerResult): real {
    match ResultLevel(catalog, result)
    case None => 0.0
    case Some(level) => Weight(acc, level)
  }

  /** The sum of the contributions of `results`, accumulated in input order. */
  function Total(catalog: seq<BiomarkerDefinition>, acc: Accumulator, results: seq<BiomarkerResult>): real {
    if |results| == 0 then 0.0
    else Total(catalog, acc, results[..|results| - 1]) + Contribution(catalog, acc, results[|results| - 1])
  }

  /** Each result moves the sum by at most its level's extreme weights:
      between −1 and 15 points of deduction, between −0.5 and 3 years. */
  lemma {:induction false} TotalBounds(catalog: seq<BiomarkerDefinition>, acc: Accumulator, results: seq<BiomarkerResult>)
    ensures acc == Deductions ==> -(|results| as real) <= Total(catalog, acc, results) <= 15.0 * |results| as real
    ensures acc == BioAge ==> -0.5 * |results| as real <= Total(catalog, acc, results) <= 3.0 * |results| as real
  {
    if |results| > 0 {
      TotalBounds(catalog, acc, results[..|results| - 1]);
    }
  }

  lemma TotalAppend(catalog: seq<BiomarkerDefinition>, acc: Accumulator, results: seq<BiomarkerResult>, x: BiomarkerResult)
    ensures Total(catalog, acc, results + [x]) == Total(catalog, acc, results) + Contribution(catalog, acc, x)
  {
    assert (results + [x])[..|results|] == results;
  }

  /** Taking one element out of the sum subtracts exactly its contribution. */
  lemma {:induction false} TotalRemove(catalog: seq<BiomarkerDefinition>, acc: Accumulator, s: seq<BiomarkerResult>, k: nat)
    requires k < |s|
    ensures Total(catalog, acc, s) == Total(catalog, acc, s[..k] + s[k + 1..]) + Contribution(catalog, acc, s[k])
  {
    var last := |s| - 1;
    if k == last {
      assert s[..k] + s[k + 1..] == s[..last];
    } else {
      var init := s[..last];
      TotalRemove(catalog, acc, init, k);
      assert s[..k] + s[k + 1..] == (init[..k] + init[k + 1..]) + [s[last]];
      TotalAppend(catalog, acc, init[..k] + init[k + 1..], s[last]);
    }
  }

  /** Dropping the last element of `a` and an equal element of `b` keeps two
      permutations of each other. */
  lemma RemoveMatchingElements<T>(a: seq<T>, b: seq<T>, k: nat)
    requires multiset(a) == multiset(b)
    requires |a| > 0 && k < |b| && b[k] == a[|a| - 1]
    ensures multiset(a[..|a| - 1]) == multiset(b[..k] + b[k + 1..])
  {
    var last := |a| - 1;
    var x := a[last];
    assert a == a[..last] + [x];
    assert b == b[..k] + [x] + b[k + 1..];
    var ma, mr := multiset(a[..last]), multiset(b[..k] + b[k + 1..]);
    assert ma + multiset{x} == mr + multiset{x};
    forall o ensures ma[o] == mr[o] {
      assert (ma + multiset{x})[o] == (mr + multiset{x})[o];
    }
  }

  /** The sum does not depend on the order of the results. */
  lemma {:induction false} TotalPermutation(catalog: seq<BiomarkerDefinition>, acc: Accumulator, a: seq<BiomarkerResult>, b: seq<BiomarkerResult>)
    requires multiset(a) == multiset(b)
    ensures Total(catalog, acc, a) == Total(catalog, acc, b)
    decreases |a|
  {
    if |a| == 0 {
      assert |b| == |multiset(b)| == 0;
    } else {
      var last := |a| - 1;
      var x := a[last];
      assert x in multiset(b);
      var k :| 0 <= k < |b| && b[k] == x;
      TotalRemove(catalog, acc, b, k);
      var rest := b[..k] + b[k + 1..];
      RemoveMatchingElements(a, b, k);
      TotalPermutation(catalog, acc, a[..last], rest);
    }
  }

  // ---------------------------------------------------------------------
  // Health score

  /** JavaScript's Math.round: the nearest integer, halves rounded up. */
  function Round(x: real): (n: int)
    ensures n as real - 0.5 <= x < n as real + 0.5
  {
    (x + 0.5).Floor
  }

  lemma RoundMonotone(x: real, y: real)
    requires x <= y
    ensures Round(x) <= Round(y)
  {
  }

  /** 100 minus every deduction, before rounding and clamping. */
  function RawScore(catalog: seq<BiomarkerDefinition>, results: seq<BiomarkerResult>, profile: UserProfile): real {
    100.0 - (2.0 * BmiExcess(profile) + Total(catalog, Deductions, results))
  }

  /** The health score: the raw score rounded to an integer and clamped to
      [0, 100]. */
  function HealthScore(catalog: seq<BiomarkerDefinition>, results: seq<BiomarkerResult>, profile: UserProfile): (score: int)
    ensures 0 <= score <= 100
    ensures score == 100 <==> RawScore(catalog, results, profile) >= 99.5
    ensures score == 0 <==> RawScore(catalog, results, profile) < 0.5
    ensures 0 < score < 100 ==> score as real - 0.5 <= RawScore(catalog, results, profile) < score as real + 0.5
  {
    var rounded := Round(RawScore(catalog, results, profile));
    var capped := if rounded < 100 then rounded else 100;
    if capped > 0 then capped else 0
  }

  /** calculateHealthScore as the original runs it, accumulating deductions
      result by result. */
  method CalculateHealthScore(catalog: seq<BiomarkerDefinition>, results: seq<BiomarkerResult>, profile: UserProfile)
    returns (score: int)
    ensures score == HealthScore(catalog, results, profile)
  {
    var deductions := 0.0;
    if Truthy(profile.heightCm) && Truthy(profile.weightKg) {
      var bmi := CalculateBmi(profile.heightCm, profile.weightKg);
      if bmi > 25.0 { deductions := deductions + (bmi - 25.0) * 2.0; }
      if bmi < 18.5 { deductions := deductions + (18.5 - bmi) * 2.0; }
    }
    ghost var bmiDeduction := deductions;
    assert bmiDeduction == 2.0 * BmiExcess(profile);
    var i := 0;
    while i < |results|
      invariant 0 <= i <= |results|
      invariant deductions == bmiDeduction + Total(catalog, Deductions, results[..i])
    {
      var result := results[i];
      assert results[..i + 1] == results[..i] + [result];
      TotalAppend(catalog, Deductions, results[..i], result);
      var definition := Find(catalog, result.biomarkerId);
      if definition.Some? {
        var evalResult := EvaluateBiomarker(result.value, definition.value);
        assert ResultLevel(catalog, result) == if evalResult.Some? then Some(evalResult.value.level) else None;
        if evalResult.Some? {
          match evalResult.value.level
          case Borderline => deductions := deductions + 3.0;
          case High => deductions := deductions + 8.0;
          case Critical => deductions := deductions + 15.0;
          case Optimal => deductions := deductions - 1.0;
          case Normal =>
        }
      }
      i := i + 1;
    }
    assert results[..i] == results;
    var rounded := Round(100.0 - deductions);
    score := if rounded < 100 then rounded else 100;
    score := if score > 0 then score else 0;
  }

  // ---------------------------------------------------------------------
  // Biological age

  /** x has at most one decimal place. */
  predicate IsTenth(x: real) {
    (x * 10.0).Floor as real == x * 10.0
  }

  /** Chronological age plus every adjustment, before rounding and flooring. */
  function RawBiologicalAge(catalog: seq<BiomarkerDefinition>, results: seq<BiomarkerResult>, profile: UserProfile): real
    requires profile.age.Some?
  {
    profile.age.value + 0.5 * BmiExcess(profile) + Total(catalog, BioAge, results)
  }

  /** Rounds to one decimal (half up) and floors the result at 1 year. */
  function RoundAge(raw: real): (age: real)
    ensures age >= 1.0 && IsTenth(age)
    ensures raw >= 0.95 ==> raw - 0.05 < age <= raw + 0.05
    ensures raw < 0.95 ==> age == 1.0
  {
    var tenths := Round(raw * 10.0);
    var rounded := tenths as real / 10.0;
    assert rounded * 10.0 == tenths as real;
    assert (rounded * 10.0).Floor == tenths;
    assert rounded - 0.05 <= raw < rounded + 0.05;
    assert raw >= 0.95 ==> tenths >= 10 && rounded >= 1.0;
    assert raw < 0.95 ==> tenths <= 9 && rounded < 1.0;
    if rounded > 1.0 then rounded else 1.0
  }

  /** The biological age: 0 when the age is missing or zero; otherwise the raw
      age rounded to one decimal and never below 1 year. */
  function BiologicalAge(catalog: seq<BiomarkerDefinition>, results: seq<BiomarkerResult>, profile: UserProfile): (age: real)
    ensures !Truthy(profile.age) ==> age == 0.0
    ensures Truthy(profile.age) ==> age >= 1.0 && IsTenth(age)
    ensures Truthy(profile.age) ==> age == RoundAge(RawBiologicalAge(catalog, results, profile))
  {
    if !Truthy(profile.age) then 0.0
    else RoundAge(RawBiologicalAge(catalog, results, profile))
  }

  /** calculateBiologicalAge as the original runs it, adjusting the age
      result by result. */
  method CalculateBiologicalAge(catalog: seq<BiomarkerDefinition>, results: seq<BiomarkerResult>, profile: UserProfile)
    returns (age: real)
    ensures age == BiologicalAge(catalog, results, profile)
  {
    if !Truthy(profile.age) {
      return 0.0;
    }
    var bioAge := profile.age.value;
    if Truthy(profile.heightCm) && Truthy(profile.weightKg) {
      var bmi := CalculateBmi(profile.heightCm, profile.weightKg);
      if bmi > 25.0 { bioAge := bioAge + (bmi - 25.0) * 0.5; }
      if bmi < 18.5 { bioAge := bioAge + (18.5 - bmi) * 0.5; }
    }
    ghost var start := bioAge;
    assert start == profile.age.value + 0.5 * BmiExcess(profile);
    var i := 0;
    while i < |results|
      invariant 0 <= i <= |results|
      invariant bioAge == start + Total(catalog, BioAge, results[..i])
    {
      var result := results[i];
      assert results[..i + 1] == results[..i] + [result];
      TotalAppend(catalog, BioAge, results[..i], result);
      var definition := Find(catalog, result.biomarkerId);
      if definition.Some? {
        var evalResult := EvaluateBiomarker(result.value, definition.value);
        assert ResultLevel(catalog, result) == if evalResult.Some? then Some(evalResult.value.level) else None;
        if evalResult.Some? {
          match evalResult.value.level
          case Borderline => bioAge := bioAge + 0.5;
          case High => bioAge := bioAge + 1.5;
          case Critical => bioAge := bioAge + 3.0;
          case Optimal => bioAge := bioAge - 0.5;
          case Normal =>
        }
      }
      i := i + 1;
    }
    assert results[..i] == results;
    var rounded := Round(bioAge * 10.0) as real / 10.0;
    age := if rounded > 1.0 then rounded else 1.0;
  }

  // ---------------------------------------------------------------------
  // Properties relating several calls

  /** Reordering the results changes neither the score nor the age. */
  lemma PermutationInvariant(catalog: seq<BiomarkerDefinition>, a: seq<BiomarkerResult>, b: seq<BiomarkerResult>, profile: UserProfile)
    requires multiset(a) == multiset(b)
    ensures HealthScore(catalog, a, profile) == HealthScore(catalog, b, profile)
    ensures BiologicalAge(catalog, a, profile) == BiologicalAge(catalog, b, profile)
  {
    TotalPermutation(catalog, Deductions, a, b);
    TotalPermutation(catalog, BioAge, a, b);
  }

  /** Appending one result moves the raw score by the fixed amount of its
      level; unknown, unmatched and normal results move nothing. */
  lemma AppendedResultScoreEffect(catalog: seq<BiomarkerDefinition>, results: seq<BiomarkerResult>, profile: UserProfile, x: BiomarkerResult)
    ensures var before, after := RawScore(catalog, results, profile), RawScore(catalog, results + [x], profile);
            && (ResultLevel(catalog, x) == Some(Borderline) ==> after == before - 3.0)
            && (ResultLevel(catalog, x) == Some(High) ==> after == before - 8.0)
            && (ResultLevel(catalog, x) == Some(Critical) ==> after == before - 15.0)
            && (ResultLevel(catalog, x) == Some(Optimal) ==> after == before + 1.0)
            && (ResultLevel(catalog, x) in {None, Some(Normal)} ==> after == before)
  {
    TotalAppend(catalog, Deductions, results, x);
  }

  /** Appending one result moves the raw biological age by the fixed amount
      of its level; unknown, unmatched and normal results move nothing. */
  lemma AppendedResultAgeEffect(catalog: seq<BiomarkerDefinition>, results: seq<BiomarkerResult>, profile: UserProfile, x: BiomarkerResult)
    requires profile.age.Some?
    ensures var before, after := RawBiologicalAge(catalog, results, profile), RawBiologicalAge(catalog, results + [x], profile);
            && (ResultLevel(catalog, x) == Some(Borderline) ==> after == before + 0.5)
            && (ResultLevel(catalog, x) == Some(High) ==> after == before + 1.5)
            && (ResultLevel(catalog, x) == Some(Critical) ==> after == before + 3.0)
            && (ResultLevel(catalog, x) == Some(Optimal) ==> after == before - 0.5)
            && (ResultLevel(catalog, x) in {None, Some(Normal)} ==> after == before)
  {
    TotalAppend(catalog, BioAge, results, x);
  }

  /** A borderline, high or critical result never raises the score and never
      lowers the biological age. */
  lemma ConcerningResultMonotone(catalog: seq<BiomarkerDefinition>, results: seq<BiomarkerResult>, profile: UserProfile, x: BiomarkerResult)
    requires ResultLevel(catalog, x).Some? && Concerning(ResultLevel(catalog, x).value)
    ensures HealthScore(catalog, results + [x], profile) <= HealthScore(catalog, results, profile)
    ensures BiologicalAge(catalog, results + [x], profile) >= BiologicalAge(catalog, results, profile)
  {
    TotalAppend(catalog, Deductions, results, x);
    TotalAppend(catalog, BioAge, results, x);
    RoundMonotone(RawScore(catalog, results + [x], profile), RawScore(catalog, results, profile));
    if Truthy(profile.age) {
      RoundMonotone(RawBiologicalAge(catalog, results, profile) * 10.0, RawBiologicalAge(catalog, results + [x], profile) * 10.0);
    }
  }

  /** An optimal result never lowers the score and never raises the
      biological age. */
  lemma OptimalResultMonotone(catalog: seq<BiomarkerDefinition>, results: seq<BiomarkerResult>, profile: UserProfile, x: BiomarkerResult)
    requires ResultLevel(catalog, x) == Some(Optimal)
    ensures HealthScore(catalog, results + [x], profile) >= HealthScore(catalog, results, profile)
    ensures BiologicalAge(catalog, results + [x], profile) <= BiologicalAge(catalog, results, profile)
  {
    TotalAppend(catalog, Deductions, results, x);
    TotalAppend(catalog, BioAge, results, x);
    RoundMonotone(RawScore(catalog, results, profile), RawScore(catalog, results + [x], profile));
    if Truthy(profile.age) {
      RoundMonotone(RawBiologicalAge(catalog, results + [x], profile) * 10.0, RawBiologicalAge(catalog, results, profile) * 10.0);
    }
  }
}
