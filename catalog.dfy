/** The static biomarker catalog: 23 definitions, each with an ordered list of
    reference ranges, and the lookup of a definition by id. */
module Catalog {
  import opened Types

  const FastingGlucose := BiomarkerDefinition(
    "fasting_glucose", "Fasting Glucose", Metabolic, "mg/dL",
    [ BiomarkerRange(None, Some(70.0), Critical, "Hypoglycemia"),
      BiomarkerRange(Some(70.0), Some(99.0), Optimal, "Normal"),
      BiomarkerRange(Some(100.0), Some(125.0), Borderline, "Prediabetes"),
      BiomarkerRange(Some(126.0), None, High, "Diabetes") ],
    "Measures blood sugar levels after fasting. Key indicator for diabetes risk.",
    Some("Maintain a balanced diet low in refined sugars and engage in regular physical activity."))

  const Hba1c := BiomarkerDefinition(
    "hba1c", "HbA1c", Metabolic, "%",
    [ BiomarkerRange(None, Some(5.6), Optimal, "Normal"),
      BiomarkerRange(Some(5.7), Some(6.4), Borderline, "Prediabetes"),
      BiomarkerRange(Some(6.5), None, High, "Diabetes") ],
    "Average blood sugar levels over the past 2-3 months.",
    Some("Consistent exercise and a diet rich in fiber can help stabilize long-term blood sugar."))

  const TotalCholesterol := BiomarkerDefinition(
    "total_cholesterol", "Total Cholesterol", Cardiovascular, "mg/dL",
    [ BiomarkerRange(None, Some(199.0), Optimal, "Desirable"),
      BiomarkerRange(Some(200.0), Some(239.0), Borderline, "Borderline High"),
      BiomarkerRange(Some(240.0), None, High, "High") ],
    "Total amount of cholesterol in your blood.",
    Some("Reduce saturated fats and eliminate trans fats. Increase soluble fiber intake."))

  const Ldl := BiomarkerDefinition(
    "ldl", "LDL Cholesterol", Cardiovascular, "mg/dL",
    [ BiomarkerRange(None, Some(99.0), Optimal, "Optimal"),
      BiomarkerRange(Some(100.0), Some(129.0), Normal, "Near Optimal"),
      BiomarkerRange(Some(130.0), Some(159.0), Borderline, "Borderline High"),
      BiomarkerRange(Some(160.0), Some(189.0), High, "High"),
      BiomarkerRange(Some(190.0), None, Critical, "Very High") ],
    "Low-density lipoprotein, often called \"bad\" cholesterol.",
    Some("Limit red meat and full-fat dairy. Consider plant sterols and regular aerobic exercise."))

  const Hdl := BiomarkerDefinition(
    "hdl", "HDL Cholesterol", Cardiovascular, "mg/dL",
    [ BiomarkerRange(None, Some(39.0), High, "Low (High Risk)"),
      BiomarkerRange(Some(40.0), Some(59.0), Normal, "Acceptable"),
      BiomarkerRange(Some(60.0), None, Optimal, "Optimal") ],
    "High-density lipoprotein, often called \"good\" cholesterol.",
    Some("Regular aerobic exercise, quitting smoking, and consuming healthy fats (like olive oil) can increase HDL."))

  const Triglycerides := BiomarkerDefinition(
    "triglycerides", "Triglycerides", Cardiovascular, "mg/dL",
    [ BiomarkerRange(None, Some(149.0), Optimal, "Normal"),
      BiomarkerRange(Some(150.0), Some(199.0), Borderline, "Borderline High"),
      BiomarkerRange(Some(200.0), Some(499.0), High, "High"),
      BiomarkerRange(Some(500.0), None, Critical, "Very High") ],
    "A type of fat found in your blood.",
    Some("Limit sugar and refined carbohydrates. Reduce alcohol consumption and increase omega-3 fatty acids."))

  const Crp := BiomarkerDefinition(
    "crp", "hs-CRP", Inflammation, "mg/L",
    [ BiomarkerRange(None, Some(0.9), Optimal, "Low Risk"),
      BiomarkerRange(Some(1.0), Some(3.0), Normal, "Average Risk"),
      BiomarkerRange(Some(3.1), Some(10.0), High, "High Risk"),
      BiomarkerRange(Some(10.1), None, Critical, "Very High (Acute Inflammation)") ],
    "High-sensitivity C-reactive protein, a marker of inflammation.",
    Some("An anti-inflammatory diet (Mediterranean), stress management, and adequate sleep can lower CRP."))

  const VitaminD := BiomarkerDefinition(
    "vitamin_d", "Vitamin D (25-OH)", General, "ng/mL",
    [ BiomarkerRange(None, Some(19.0), High, "Deficient"),
      BiomarkerRange(Some(20.0), Some(29.0), Borderline, "Insufficient"),
      BiomarkerRange(Some(30.0), Some(100.0), Optimal, "Sufficient"),
      BiomarkerRange(Some(101.0), None, Critical, "Toxicity Possible") ],
    "Crucial for bone health, immune function, and mood.",
    Some("Safe sun exposure and vitamin D3 supplementation if levels are low."))

  const SystolicBp := BiomarkerDefinition(
    "systolic_bp", "Systolic Blood Pressure", Cardiovascular, "mmHg",
    [ BiomarkerRange(None, Some(119.0), Optimal, "Normal"),
      BiomarkerRange(Some(120.0), Some(129.0), Borderline, "Elevated"),
      BiomarkerRange(Some(130.0), Some(139.0), High, "Stage 1 Hypertension"),
      BiomarkerRange(Some(140.0), None, Critical, "Stage 2 Hypertension") ],
    "Pressure in your arteries when your heart beats.",
    Some("Reduce sodium intake, manage stress, and maintain a healthy weight."))

  const DiastolicBp := BiomarkerDefinition(
    "diastolic_bp", "Diastolic Blood Pressure", Cardiovascular, "mmHg",
    [ BiomarkerRange(None, Some(79.0), Optimal, "Normal"),
      BiomarkerRange(Some(80.0), Some(89.0), High, "Stage 1 Hypertension"),
      BiomarkerRange(Some(90.0), None, Critical, "Stage 2 Hypertension") ],
    "Pressure in your arteries when your heart rests between beats.",
    Some("Regular aerobic exercise and a diet rich in potassium can help lower diastolic pressure."))

  const Creatinine := BiomarkerDefinition(
    "creatinine", "Creatinine", Metabolic, "mg/dL",
    [ BiomarkerRange(None, Some(0.5), Borderline, "Low"),
      BiomarkerRange(Some(0.6), Some(1.2), Optimal, "Normal"),
      BiomarkerRange(Some(1.3), Some(1.9), High, "High"),
      BiomarkerRange(Some(2.0), None, Critical, "Very High") ],
    "Indicator of kidney function.",
    Some("Stay hydrated and avoid excessive protein intake if levels are high."))

  const Ferritin := BiomarkerDefinition(
    "ferritin", "Serum Ferritin", General, "ng/mL",
    [ BiomarkerRange(None, Some(29.0), High, "Deficient"),
      BiomarkerRange(Some(30.0), Some(200.0), Optimal, "Normal"),
      BiomarkerRange(Some(201.0), Some(400.0), Borderline, "Elevated"),
      BiomarkerRange(Some(401.0), None, Critical, "Very High") ],
    "Measures the amount of iron stored in the body.",
    Some("Adjust iron intake. If low, consume iron-rich foods; if high, consult a doctor."))

  const Ggt := BiomarkerDefinition(
    "ggt", "Gamma GT (GGT)", Metabolic, "U/L",
    [ BiomarkerRange(None, Some(30.0), Optimal, "Optimal"),
      BiomarkerRange(Some(31.0), Some(50.0), Normal, "Normal"),
      BiomarkerRange(Some(51.0), Some(100.0), High, "High"),
      BiomarkerRange(Some(101.0), None, Critical, "Very High") ],
    "Liver enzyme that indicates liver health and possible alcohol toxicity.",
    Some("Limit alcohol consumption and avoid hepatotoxic medications."))

  const Hemoglobin := BiomarkerDefinition(
    "hemoglobin", "Hemoglobin (CBC)", General, "g/dL",
    [ BiomarkerRange(None, Some(11.9), High, "Low (Anemia)"),
      BiomarkerRange(Some(12.0), Some(17.5), Optimal, "Normal"),
      BiomarkerRange(Some(17.6), None, Critical, "High") ],
    "Protein in red blood cells that carries oxygen. Part of a Complete Blood Count.",
    Some("Ensure adequate intake of iron, vitamin B12, and folate."))

  const FreeT4 := BiomarkerDefinition(
    "free_t4", "Free T4", Hormonal, "ng/dL",
    [ BiomarkerRange(None, Some(0.7), High, "Low (Hypothyroidism)"),
      BiomarkerRange(Some(0.8), Some(1.8), Optimal, "Normal"),
      BiomarkerRange(Some(1.9), None, High, "High (Hyperthyroidism)") ],
    "Thyroid hormone that regulates metabolism.",
    Some("Consult an endocrinologist if levels are outside the normal range."))

  const Ast := BiomarkerDefinition(
    "ast", "AST (SGOT)", Metabolic, "U/L",
    [ BiomarkerRange(None, Some(35.0), Optimal, "Normal"),
      BiomarkerRange(Some(36.0), Some(100.0), High, "High"),
      BiomarkerRange(Some(101.0), None, Critical, "Very High") ],
    "Enzyme found in the liver and heart. High levels indicate tissue damage.",
    Some("Maintain a healthy weight and avoid excessive alcohol."))

  const Alt := BiomarkerDefinition(
    "alt", "ALT (SGPT)", Metabolic, "U/L",
    [ BiomarkerRange(None, Some(35.0), Optimal, "Normal"),
      BiomarkerRange(Some(36.0), Some(100.0), High, "High"),
      BiomarkerRange(Some(101.0), None, Critical, "Very High") ],
    "Enzyme found primarily in the liver. Best test for detecting liver damage.",
    Some("Maintain a healthy diet and limit alcohol intake to protect liver function."))

  const Tsh := BiomarkerDefinition(
    "tsh", "Ultrasensitive TSH", Hormonal, "mIU/L",
    [ BiomarkerRange(None, Some(0.3), High, "Low (Hyperthyroidism)"),
      BiomarkerRange(Some(0.4), Some(4.0), Optimal, "Normal"),
      BiomarkerRange(Some(4.1), Some(10.0), Borderline, "Subclinical Hypothyroidism"),
      BiomarkerRange(Some(10.1), None, Critical, "High (Hypothyroidism)") ],
    "Thyroid-stimulating hormone. Evaluates overall thyroid function.",
    Some("Requires medical evaluation if abnormal. Iodine intake may need adjustment."))

  const Urea := BiomarkerDefinition(
    "urea", "Urea", Metabolic, "mg/dL",
    [ BiomarkerRange(None, Some(15.0), Borderline, "Low"),
      BiomarkerRange(Some(16.0), Some(45.0), Optimal, "Normal"),
      BiomarkerRange(Some(46.0), Some(80.0), High, "High"),
      BiomarkerRange(Some(81.0), None, Critical, "Very High") ],
    "Waste product filtered by the kidneys.",
    Some("Stay hydrated. High protein diets can elevate urea levels."))

  const UrineProtein := BiomarkerDefinition(
    "urine_protein", "Urine Protein (Urinalysis)", General, "mg/dL",
    [ BiomarkerRange(None, Some(14.0), Optimal, "Negative / Trace"),
      BiomarkerRange(Some(15.0), Some(30.0), Borderline, "Mildly Elevated"),
      BiomarkerRange(Some(31.0), None, Critical, "High (Proteinuria)") ],
    "Protein in urine. A key marker in routine urinalysis for kidney health.",
    Some("Persistent protein in urine requires nephrology evaluation."))

  const VitaminB12 := BiomarkerDefinition(
    "vitamin_b12", "Vitamin B12", General, "pg/mL",
    [ BiomarkerRange(None, Some(199.0), Critical, "Deficient"),
      BiomarkerRange(Some(200.0), Some(399.0), Borderline, "Low Normal"),
      BiomarkerRange(Some(400.0), Some(900.0), Optimal, "Normal"),
      BiomarkerRange(Some(901.0), None, High, "High") ],
    "Essential for nerve tissue health, brain function, and red blood cell production.",
    Some("Consider B12 supplementation or consuming more animal products/fortified foods if low."))

  const UricAcid := BiomarkerDefinition(
    "uric_acid", "Uric Acid", Metabolic, "mg/dL",
    [ BiomarkerRange(None, Some(2.4), Borderline, "Low"),
      BiomarkerRange(Some(2.5), Some(7.0), Optimal, "Normal"),
      BiomarkerRange(Some(7.1), Some(8.5), High, "High"),
      BiomarkerRange(Some(8.6), None, Critical, "Very High") ],
    "Produced during the breakdown of purines. High levels can cause gout.",
    Some("Limit purine-rich foods (red meat, seafood) and alcohol. Drink plenty of water."))

  const TransferrinSat := BiomarkerDefinition(
    "transferrin_sat", "Transferrin Saturation", General, "%",
    [ BiomarkerRange(None, Some(19.0), High, "Low (Iron Deficiency)"),
      BiomarkerRange(Some(20.0), Some(50.0), Optimal, "Normal"),
      BiomarkerRange(Some(51.0), None, Critical, "High (Iron Overload)") ],
    "Indicates how much iron is bound to transferrin in the blood.",
    Some("If low, increase iron intake. If high, evaluate for hemochromatosis."))

  const Biomarkers: seq<BiomarkerDefinition> := [FastingGlucose, Hba1c, TotalCholesterol, Ldl, Hdl, Triglycerides, Crp, VitaminD, SystolicBp, DiastolicBp, Creatinine, Ferritin, Ggt, Hemoglobin, FreeT4, Ast, Alt, Tsh, Urea, UrineProtein, VitaminB12, UricAcid, TransferrinSat]

  /** Index of the first definition whose id is `id`, scanning from `k`. */
  function FindFrom(defs: seq<BiomarkerDefinition>, id: string, k: nat): (r: Option<nat>)
    requires k <= |defs|
    decreases |defs| - k
    ensures r.Some? ==> k <= r.value < |defs| && defs[r.value].id == id
    ensures r.Some? ==> forall j :: k <= j < r.value ==> defs[j].id != id
    ensures r.None? ==> forall j :: k <= j < |defs| ==> defs[j].id != id
  {
    if k == |defs| then None
    else if defs[k].id == id then Some(k)
    else FindFrom(defs, id, k + 1)
  }

  /** The first definition in `defs` whose id is `id` (as `Array.find`
      does), or None when there is none. */
  function Find(defs: seq<BiomarkerDefinition>, id: string): (r: Option<BiomarkerDefinition>)
    ensures r.Some? ==> r.value in defs && r.value.id == id
    ensures r.Some? ==> exists k :: 0 <= k < |defs| && defs[k] == r.value && forall j :: 0 <= j < k ==> defs[j].id != id
    ensures r.None? <==> forall d :: d in defs ==> d.id != id
  {
    match FindFrom(defs, id, 0)
    case Some(k) => Some(defs[k])
    case None => None
  }

  /** Consecutive ranges `a`, `b` meet in ascending order. */
  predicate Linked(a: BiomarkerRange, b: BiomarkerRange) {
    a.max.Some? && b.min.Some? && a.max.value <= b.min.value
  }

  /** A range with both bounds has min <= max. */
  predicate Closed(r: BiomarkerRange) {
    r.min.Some? && r.max.Some? ==> r.min.value <= r.max.value
  }

  /** The catalog author's invariant on an entry's ranges: the first range is
      unbounded below, the last unbounded above, every closed range has
      min <= max, and consecutive ranges ascend (previous max <= next min). */
  ghost predicate AscendingRanges(rs: seq<BiomarkerRange>) {
    && |rs| > 0
    && rs[0].min.None?
    && rs[|rs| - 1].max.None?
    && (forall i :: 0 <= i < |rs| ==> Closed(rs[i]))
    && (forall i, j :: 0 <= i < j < |rs| && j == i + 1 ==> Linked(rs[i], rs[j]))
  }

  lemma LinkedAt(rs: seq<BiomarkerRange>, i: nat)
    requires AscendingRanges(rs)
    requires i + 1 < |rs|
    ensures Linked(rs[i], rs[i + 1])
  {
  }

  /** In ascending ranges the upper bounds never decrease. */
  lemma {:induction false} MaxAscending(rs: seq<BiomarkerRange>, j: nat, k: nat)
    requires AscendingRanges(rs)
    requires j <= k < |rs| - 1
    ensures rs[j].max.Some? && rs[k].max.Some? && rs[j].max.value <= rs[k].max.value
    decreases k - j
  {
    LinkedAt(rs, j);
    if j < k {
      MaxAscending(rs, j + 1, k);
      assert Closed(rs[j + 1]);
    }
  }

  /** In ascending ranges the lower bounds never decrease. */
  lemma {:induction false} MinAscending(rs: seq<BiomarkerRange>, j: nat, k: nat)
    requires AscendingRanges(rs)
    requires 0 < j <= k < |rs|
    ensures rs[j].min.Some? && rs[k].min.Some? && rs[j].min.value <= rs[k].min.value
  {
    LinkedAt(rs, k - 1);
    if j < k {
      MinAscending(rs, j, k - 1);
      assert Closed(rs[k - 1]);
    }
  }

  /** Three ranges, linked pairwise, unbounded at both ends, are ascending. */
  lemma Ascending3(rs: seq<BiomarkerRange>)
    requires |rs| == 3 && rs[0].min.None? && rs[2].max.None?
    requires Linked(rs[0], rs[1]) && Linked(rs[1], rs[2]) && Closed(rs[1])
    ensures AscendingRanges(rs)
  {
  }

  /** Four ranges, linked pairwise, unbounded at both ends, are ascending. */
  lemma Ascending4(rs: seq<BiomarkerRange>)
    requires |rs| == 4 && rs[0].min.None? && rs[3].max.None?
    requires Linked(rs[0], rs[1]) && Linked(rs[1], rs[2]) && Linked(rs[2], rs[3])
    requires Closed(rs[1]) && Closed(rs[2])
    ensures AscendingRanges(rs)
  {
  }

  /** Five ranges, linked pairwise, unbounded at both ends, are ascending. */
  lemma Ascending5(rs: seq<BiomarkerRange>)
    requires |rs| == 5 && rs[0].min.None? && rs[4].max.None?
    requires Linked(rs[0], rs[1]) && Linked(rs[1], rs[2]) && Linked(rs[2], rs[3]) && Linked(rs[3], rs[4])
    requires Closed(rs[1]) && Closed(rs[2]) && Closed(rs[3])
    ensures AscendingRanges(rs)
  {
  }

  lemma RangesAscendingPart1()
    ensures AscendingRanges(FastingGlucose.ranges)
         && AscendingRanges(Hba1c.ranges)
         && AscendingRanges(TotalCholesterol.ranges)
         && AscendingRanges(Ldl.ranges)
         && AscendingRanges(Hdl.ranges)
         && AscendingRanges(Triglycerides.ranges)
  {
    Ascending4(FastingGlucose.ranges);
    Ascending3(Hba1c.ranges);
    Ascending3(TotalCholesterol.ranges);
    Ascending5(Ldl.ranges);
    Ascending3(Hdl.ranges);
    Ascending4(Triglycerides.ranges);
  }

  lemma RangesAscendingPart2()
    ensures AscendingRanges(Crp.ranges)
         && AscendingRanges(VitaminD.ranges)
         && AscendingRanges(SystolicBp.ranges)
         && AscendingRanges(DiastolicBp.ranges)
         && AscendingRanges(Creatinine.ranges)
         && AscendingRanges(Ferritin.ranges)
  {
    Ascending4(Crp.ranges);
    Ascending4(VitaminD.ranges);
    Ascending4(SystolicBp.ranges);
    Ascending3(DiastolicBp.ranges);
    Ascending4(Creatinine.ranges);
    Ascending4(Ferritin.ranges);
  }

  lemma RangesAscendingPart3()
    ensures AscendingRanges(Ggt.ranges)
         && AscendingRanges(Hemoglobin.ranges)
         && AscendingRanges(FreeT4.ranges)
         && AscendingRanges(Ast.ranges)
         && AscendingRanges(Alt.ranges)
         && AscendingRanges(Tsh.ranges)
  {
    Ascending4(Ggt.ranges);
    Ascending3(Hemoglobin.ranges);
    Ascending3(FreeT4.ranges);
    Ascending3(Ast.ranges);
    Ascending3(Alt.ranges);
    Ascending4(Tsh.ranges);
  }

  lemma RangesAscendingPart4()
    ensures AscendingRanges(Urea.ranges)
         && AscendingRanges(UrineProtein.ranges)
         && AscendingRanges(VitaminB12.ranges)
         && AscendingRanges(UricAcid.ranges)
         && AscendingRanges(TransferrinSat.ranges)
  {
    Ascending4(Urea.ranges);
    Ascending3(UrineProtein.ranges);
    Ascending4(VitaminB12.ranges);
    Ascending4(UricAcid.ranges);
    Ascending3(TransferrinSat.ranges);
  }

  /** Every catalog entry has ascending ranges. */
  lemma CatalogRangesAscending()
    ensures forall d :: d in Biomarkers ==> AscendingRanges(d.ranges)
  {
    RangesAscendingPart1();
    RangesAscendingPart2();
    RangesAscendingPart3();
    RangesAscendingPart4();
  }

  /** The catalog has 23 entries with pairwise distinct ids. */
  lemma CatalogIdsDistinct()
    ensures |Biomarkers| == 23
    ensures forall i, j :: 0 <= i < j < |Biomarkers| ==> Biomarkers[i].id != Biomarkers[j].id
  {
  }

  /** Every catalog entry carries a recommendation. */
  lemma CatalogHasRecommendations()
    ensures forall d :: d in Biomarkers ==> d.recommendation.Some?
  {
  }
}
