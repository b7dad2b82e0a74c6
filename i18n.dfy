/** Localisation: the interface-string lookup `t` with `{name}` parameters,
    and the catalog-text lookup `tb` for category names, level labels and
    per-biomarker texts. The translation tables are parameters; their key
    sets, which decide every fallback, are constants taken from the source. */
module I18n {
  import opened Types
  import opened Catalog

  datatype Language = En | PtBr | Es

  type Table = map<string, string>

  // ---------------------------------------------------------------------
  // Interface strings: t(key, params)

  /** The interface strings of the three languages. */
  datatype Translations = Translations(en: Table, ptBr: Table, es: Table)

  function StringsOf(tr: Translations, lang: Language): Table {
    match lang
    case En => tr.en
    case PtBr => tr.ptBr
    case Es => tr.es
  }

  /** `translations[language][key] || translations.en[key]`: the current
      language's string unless it is missing or empty, then the English one.
      Keys are the English keys, so the caller always passes one of those. */
  function Lookup(tr: Translations, lang: Language, key: string): (s: string)
    requires key in tr.en
    ensures key in StringsOf(tr, lang) && StringsOf(tr, lang)[key] != "" ==> s == StringsOf(tr, lang)[key]
    ensures !(key in StringsOf(tr, lang) && StringsOf(tr, lang)[key] != "") ==> s == tr.en[key]
  {
    var table := StringsOf(tr, lang);
    if key in table && table[key] != "" then table[key] else tr.en[key]
  }

  /** English is its own fallback, and a non-empty English string never
      yields an empty result in any language. */
  lemma LookupFallbackNonEmpty(tr: Translations, lang: Language, key: string)
    requires key in tr.en
    ensures Lookup(tr, En, key) == tr.en[key]
    ensures tr.en[key] != "" ==> Lookup(tr, lang, key) != ""
  {
  }

  /** True when `pat` occurs in `s` at position i. */
  predicate OccursAt(s: string, pat: string, i: nat) {
    i + |pat| <= |s| && s[i..i + |pat|] == pat
  }

  /** The first position at or after `k` where `pat` occurs. */
  function IndexOfFrom(s: string, pat: string, k: nat): (r: Option<nat>)
    requires k <= |s|
    decreases |s| - k
    ensures r.Some? ==> k <= r.value && OccursAt(s, pat, r.value)
    ensures r.Some? ==> forall j :: k <= j < r.value ==> !OccursAt(s, pat, j)
    ensures r.None? ==> forall j :: k <= j <= |s| ==> !OccursAt(s, pat, j)
  {
    if OccursAt(s, pat, k) then Some(k)
    else if k == |s| then None
    else IndexOfFrom(s, pat, k + 1)
  }

  /** `s.indexOf(pat)`: the first occurrence, None for -1. */
  function IndexOf(s: string, pat: string): (r: Option<nat>)
    ensures r.Some? ==> OccursAt(s, pat, r.value) && forall j :: 0 <= j < r.value ==> !OccursAt(s, pat, j)
    ensures r.None? <==> forall j :: 0 <= j <= |s| ==> !OccursAt(s, pat, j)
  {
    IndexOfFrom(s, pat, 0)
  }

  /** `s.replace(pat, rep)` with a string pattern: only the first occurrence
      is replaced; without one the string is unchanged. */
  function ReplaceFirst(s: string, pat: string, rep: string): (r: string)
    ensures IndexOf(s, pat).None? ==> r == s
    ensures IndexOf(s, pat).Some? ==>
              var i := IndexOf(s, pat).value;
              && |r| == |s| - |pat| + |rep|
              && r[..i] == s[..i]
              && r[i..i + |rep|] == rep
              && r[i + |rep|..] == s[i + |pat|..]
  {
    match IndexOf(s, pat)
    case None => s
    case Some(i) => s[..i] + rep + s[i + |pat|..]
  }

  /** The text a parameter named k replaces. */
  function Placeholder(k: string): (p: string)
    ensures |p| == |k| + 2 && p[0] == '{' && p[|p| - 1] == '}' && p[1..|p| - 1] == k
  {
    "{" + k + "}"
  }

  /** The parameters applied one after another, in entry order, each to the
      string the previous ones produced. */
  function ApplyParams(s: string, params: seq<(string, string)>): (r: string)
    ensures |params| == 0 ==> r == s
    ensures |params| == 1 ==> r == ReplaceFirst(s, Placeholder(params[0].0), params[0].1)
  {
    if |params| == 0 then s
    else
      var last := params[|params| - 1];
      ReplaceFirst(ApplyParams(s, params[..|params| - 1]), Placeholder(last.0), last.1)
  }

  /** A template without any of the placeholders comes back unchanged. */
  lemma {:induction false} ApplyParamsWithoutPlaceholders(s: string, params: seq<(string, string)>)
    requires forall p :: p in params ==> IndexOf(s, Placeholder(p.0)).None?
    ensures ApplyParams(s, params) == s
    decreases |params|
  {
    if |params| > 0 {
      var init := params[..|params| - 1];
      assert forall p :: p in init ==> p in params;
      assert params[|params| - 1] in params;
      ApplyParamsWithoutPlaceholders(s, init);
    }
  }

  /** Applying a list of parameters is applying its two halves in turn. */
  lemma {:induction false} ApplyParamsAppend(s: string, a: seq<(string, string)>, b: seq<(string, string)>)
    ensures ApplyParams(s, a + b) == ApplyParams(ApplyParams(s, a), b)
    decreases |b|
  {
    if |b| == 0 {
      assert a + b == a;
    } else {
      var initB := b[..|b| - 1];
      assert (a + b)[..|a + b| - 1] == a + initB;
      assert (a + b)[|a + b| - 1] == b[|b| - 1];
      ApplyParamsAppend(s, a, initB);
    }
  }

  /** Only the first occurrence of a placeholder is filled in. */
  lemma RepeatedPlaceholderFilledOnce()
    ensures ApplyParams("{n}/{n}", [("n", "7")]) == "7/{n}"
  {
    var s := "{n}/{n}";
    assert [("n", "7")][..0] == [];
    assert ApplyParams(s, [("n", "7")]) == ReplaceFirst(s, Placeholder("n"), "7");
    assert Placeholder("n") == "{n}";
    assert IndexOf(s, "{n}") == Some(0) by {
      assert OccursAt(s, "{n}", 0);
    }
    assert s[3..] == "/{n}";
  }

  /** A value is itself scanned by later parameters: a placeholder inside an
      earlier value is filled by a later parameter of that name. */
  lemma EarlierValueScannedByLaterParameter()
    ensures ApplyParams("{a}.", [("a", "{b}"), ("b", "x")]) == "x."
  {
    var params := [("a", "{b}"), ("b", "x")];
    assert params[..1] == [("a", "{b}")];
    assert [("a", "{b}")][..0] == [];
    assert IndexOf("{a}.", "{a}") == Some(0) by {
      assert OccursAt("{a}.", "{a}", 0);
    }
    var first := ReplaceFirst("{a}.", Placeholder("a"), "{b}");
    assert first == "{b}.";
    assert ApplyParams("{a}.", params[..1]) == first;
    assert IndexOf(first, "{b}") == Some(0) by {
      assert OccursAt(first, "{b}", 0);
    }
    assert ReplaceFirst(first, Placeholder("b"), "x") == "x.";
  }

  /** One more parameter applied to the result of the previous ones. */
  lemma ApplyParamsStep(s: string, ps: seq<(string, string)>, i: nat)
    requires i < |ps|
    ensures ApplyParams(s, ps[..i + 1]) == ReplaceFirst(ApplyParams(s, ps[..i]), Placeholder(ps[i].0), ps[i].1)
  {
    assert ps[..i + 1][..i] == ps[..i];
    assert ps[..i + 1][i] == ps[i];
  }

  /** t(key, params) as the original runs it: look the string up, then fill in
      the parameters one by one. */
  method Translate(tr: Translations, lang: Language, key: string, params: Option<seq<(string, string)>>)
    returns (str: string)
    requires key in tr.en
    ensures params.None? ==> str == Lookup(tr, lang, key)
    ensures params.Some? ==> str == ApplyParams(Lookup(tr, lang, key), params.value)
  {
    str := Lookup(tr, lang, key);
    if params.Some? {
      var ps := params.value;
      var i := 0;
      while i < |ps|
        invariant 0 <= i <= |ps|
        invariant str == ApplyParams(Lookup(tr, lang, key), ps[..i])
      {
        ApplyParamsStep(Lookup(tr, lang, key), ps, i);
        str := ReplaceFirst(str, Placeholder(ps[i].0), ps[i].1);
        i := i + 1;
      }
      assert ps[..|ps|] == ps;
    }
  }

  // ---------------------------------------------------------------------
  // Catalog texts: tb(type, key, field)

  /** The three texts of one biomarker. */
  datatype BiomarkerText = BiomarkerText(name: string, desc: string, rec: string)

  /** One language's catalog texts: category names, level labels, and the
      texts of each biomarker by id. */
  datatype CatalogTexts = CatalogTexts(categories: Table, levels: Table, biomarkers: map<string, BiomarkerText>)

  datatype CatalogTranslations = CatalogTranslations(en: CatalogTexts, ptBr: CatalogTexts, es: CatalogTexts)

  function TextsOf(ct: CatalogTranslations, lang: Language): CatalogTexts {
    match lang
    case En => ct.en
    case PtBr => ct.ptBr
    case Es => ct.es
  }

  datatype TextKind = CategoryName | LevelLabel | BiomarkerTexts

  datatype Field = Name | Desc | Rec

  function FieldOf(text: BiomarkerText, field: Field): string {
    match field
    case Name => text.name
    case Desc => text.desc
    case Rec => text.rec
  }

  /** tb(type, key, field). A category or level is looked up in the current
      language only, falling back to the key itself. A biomarker text with a
      field is the current language's, or the English one when that is empty;
      an id missing from the current language, or missing from English when
      the English text is needed, makes the lookup throw, and the key is
      returned. Biomarker texts without a field also give the key. */
  function TextLookup(ct: CatalogTranslations, lang: Language, kind: TextKind, key: string, field: Option<Field>): (s: string)
    ensures kind != BiomarkerTexts ==>
              var table := if kind == CategoryName then TextsOf(ct, lang).categories else TextsOf(ct, lang).levels;
              (key in table && table[key] != "" ==> s == table[key])
              && (!(key in table && table[key] != "") ==> s == key)
    ensures kind == BiomarkerTexts && field.None? ==> s == key
    ensures kind == BiomarkerTexts && key !in TextsOf(ct, lang).biomarkers ==> s == key
    ensures kind == BiomarkerTexts && field.Some? && key in TextsOf(ct, lang).biomarkers ==>
              var own := FieldOf(TextsOf(ct, lang).biomarkers[key], field.value);
              (own != "" ==> s == own)
              && (own == "" && key in ct.en.biomarkers ==> s == FieldOf(ct.en.biomarkers[key], field.value))
              && (own == "" && key !in ct.en.biomarkers ==> s == key)
  {
    var texts := TextsOf(ct, lang);
    match kind
    case BiomarkerTexts =>
      if field.None? then key
      else if key !in texts.biomarkers then key
      else
        var own := FieldOf(texts.biomarkers[key], field.value);
        if own != "" then own
        else if key in ct.en.biomarkers then FieldOf(ct.en.biomarkers[key], field.value)
        else key
    case CategoryName =>
      if key in texts.categories && texts.categories[key] != "" then texts.categories[key] else key
    case LevelLabel =>
      if key in texts.levels && texts.levels[key] != "" then texts.levels[key] else key
  }

  // ---------------------------------------------------------------------
  // The key sets of the source's tables

  /** The key the category tabs pass for each category. */
  function CategoryKey(c: Category): (key: string)
    ensures key in CategoryKeys
  {
    match c
    case Metabolic => "metabolic"
    case Cardiovascular => "cardiovascular"
    case Inflammation => "inflammation"
    case Hormonal => "hormonal"
    case General => "general"
  }

  const CategoryKeys: set<string> := {"metabolic", "cardiovascular", "inflammation", "hormonal", "general"}

  /** Each category has its own key, and every key belongs to a category, so
      the category table is looked up once per tab. */
  lemma CategoryKeyBijective()
    ensures forall c1, c2 :: CategoryKey(c1) == CategoryKey(c2) ==> c1 == c2
    ensures forall k :: k in CategoryKeys ==> exists c :: CategoryKey(c) == k
  {
    assert CategoryKey(Metabolic) == "metabolic" && CategoryKey(Cardiovascular) == "cardiovascular";
    assert CategoryKey(Inflammation) == "inflammation" && CategoryKey(Hormonal) == "hormonal";
    assert CategoryKey(General) == "general";
  }

  /** The level labels every language translates. */
  const LevelKeys: set<string> := {
    "Optimal", "Normal", "Borderline", "High", "Critical", "Hypoglycemia",
    "Prediabetes", "Diabetes", "Desirable", "Borderline High", "Near Optimal",
    "Very High", "Low (High Risk)", "Acceptable", "Low Risk", "Average Risk",
    "High Risk", "Very High (Acute Inflammation)", "Deficient", "Insufficient",
    "Sufficient", "Toxicity Possible", "Elevated", "Stage 1 Hypertension",
    "Stage 2 Hypertension", "Low", "Low (Anemia)", "Low (Hypothyroidism)",
    "High (Hyperthyroidism)", "Subclinical Hypothyroidism", "High (Hypothyroidism)",
    "Negative / Trace", "Mildly Elevated", "High (Proteinuria)", "Low Normal",
    "Low (Iron Deficiency)", "High (Iron Overload)"}

  /** The biomarker ids English and Brazilian Portuguese translate: every
      catalog id. */
  const FullBiomarkerKeys: set<string> := set i | 0 <= i < |Biomarkers| :: Biomarkers[i].id

  /** The biomarker ids Spanish translates: those of the first ten catalog
      entries, fasting glucose to diastolic blood pressure. */
  const SpanishBiomarkerKeys: set<string> := set i | 0 <= i < 10 && i < |Biomarkers| :: Biomarkers[i].id

  /** One language's texts: the given keys, every text non-empty. */
  predicate Filled(texts: CatalogTexts, levelKeys: set<string>, biomarkerKeys: set<string>) {
    && texts.categories.Keys == CategoryKeys
    && texts.levels.Keys == levelKeys
    && texts.biomarkers.Keys == biomarkerKeys
    && (forall k :: k in texts.categories ==> texts.categories[k] != "")
    && (forall k :: k in texts.levels ==> texts.levels[k] != "")
    && (forall k :: k in texts.biomarkers ==>
          texts.biomarkers[k].name != "" && texts.biomarkers[k].desc != "" && texts.biomarkers[k].rec != "")
  }

  /** Catalog translations shaped like the source's tables, with the given
      level keys. */
  predicate ShapedLike(ct: CatalogTranslations, levelKeys: set<string>) {
    && Filled(ct.en, levelKeys, FullBiomarkerKeys)
    && Filled(ct.ptBr, levelKeys, FullBiomarkerKeys)
    && Filled(ct.es, levelKeys, SpanishBiomarkerKeys)
  }

  /** A catalog entry has a Spanish translation exactly when it is one of the
      first ten. */
  lemma SpanishKeysFirstTen(i: nat)
    requires i < |Biomarkers|
    ensures Biomarkers[i].id in SpanishBiomarkerKeys <==> i < 10
  {
    CatalogIdsDistinct();
    if Biomarkers[i].id in SpanishBiomarkerKeys {
      var j :| 0 <= j < 10 && j < |Biomarkers| && Biomarkers[j].id == Biomarkers[i].id;
      assert i == j;
    }
  }

  /** Every category name and every catalog text has its own translation in
      English and Brazilian Portuguese. */
  lemma FullLanguagesTranslateCatalog(ct: CatalogTranslations, lang: Language, i: nat, field: Field)
    requires ShapedLike(ct, LevelKeys)
    requires lang != Es && i < |Biomarkers|
    ensures var d := Biomarkers[i];
            && TextLookup(ct, lang, BiomarkerTexts, d.id, Some(field)) == FieldOf(TextsOf(ct, lang).biomarkers[d.id], field)
            && TextLookup(ct, lang, CategoryName, CategoryKey(d.category), None) == TextsOf(ct, lang).categories[CategoryKey(d.category)]
  {
    var d := Biomarkers[i];
    assert d.id in FullBiomarkerKeys;
    var text := TextsOf(ct, lang).biomarkers[d.id];
    assert text.name != "" && text.desc != "" && text.rec != "";
  }

  /** In Spanish the thirteen entries after the first ten show their raw id
      as name, description and recommendation: the lookup of the missing
      entry throws and the key is returned, with no English fallback. */
  lemma SpanishShowsRawIds(ct: CatalogTranslations, i: nat, field: Field)
    requires ShapedLike(ct, LevelKeys)
    requires 10 <= i < |Biomarkers|
    ensures TextLookup(ct, Es, BiomarkerTexts, Biomarkers[i].id, Some(field)) == Biomarkers[i].id
  {
    SpanishKeysFirstTen(i);
  }

  /** The first ten entries show their Spanish texts. */
  lemma SpanishTranslatedEntries(ct: CatalogTranslations, i: nat, field: Field)
    requires ShapedLike(ct, LevelKeys)
    requires i < 10 && i < |Biomarkers|
    ensures Biomarkers[i].id in ct.es.biomarkers
    ensures TextLookup(ct, Es, BiomarkerTexts, Biomarkers[i].id, Some(field)) == FieldOf(ct.es.biomarkers[Biomarkers[i].id], field)
  {
    var key := Biomarkers[i].id;
    assert key in SpanishBiomarkerKeys;
    var text := ct.es.biomarkers[key];
    assert text.name != "" && text.desc != "" && text.rec != "";
  }

  // ---------------------------------------------------------------------
  // Level labels of the catalog

  /** Every range label of an entry is among the keys. */
  predicate LabelsIn(d: BiomarkerDefinition, keys: set<string>) {
    forall r :: r in d.ranges ==> r.labelKey in keys
  }

  /** The label no level table has. */
  lemma LowHyperthyroidismNotALevelKey()
    ensures "Low (Hyperthyroidism)" !in LevelKeys
  {
  }

  /** The TSH range below 0.3 carries the label "Low (Hyperthyroidism)",
      which no language's level table has, so every language shows it in
      English, untranslated. */
  lemma TshLowLabelUntranslated(ct: CatalogTranslations, lang: Language)
    requires ShapedLike(ct, LevelKeys)
    ensures Biomarkers[17].id == "tsh" && Biomarkers[17].ranges[0].labelKey == "Low (Hyperthyroidism)"
    ensures TextLookup(ct, lang, LevelLabel, Biomarkers[17].ranges[0].labelKey, None) == "Low (Hyperthyroidism)"
    ensures !LabelsIn(Biomarkers[17], LevelKeys)
  {
    assert Biomarkers[17] == Tsh;
    LowHyperthyroidismNotALevelKey();
    var levels := TextsOf(ct, lang).levels;
    assert "Low (Hyperthyroidism)" !in levels;
    assert Tsh.ranges[0] in Tsh.ranges;
  }

  /** The level keys with the missing label added. */
  const CorrectedLevelKeys: set<string> := LevelKeys + {"Low (Hyperthyroidism)"}

  lemma CorrectedLabelsPart1()
    ensures LabelsIn(FastingGlucose, CorrectedLevelKeys) && LabelsIn(Hba1c, CorrectedLevelKeys) && LabelsIn(TotalCholesterol, CorrectedLevelKeys)
  {
  }

  lemma CorrectedLabelsPart2()
    ensures LabelsIn(Ldl, CorrectedLevelKeys) && LabelsIn(Hdl, CorrectedLevelKeys) && LabelsIn(Triglycerides, CorrectedLevelKeys)
  {
  }

  lemma CorrectedLabelsPart3()
    ensures LabelsIn(Crp, CorrectedLevelKeys) && LabelsIn(VitaminD, CorrectedLevelKeys) && LabelsIn(SystolicBp, CorrectedLevelKeys)
  {
  }

  lemma CorrectedLabelsPart4()
    ensures LabelsIn(DiastolicBp, CorrectedLevelKeys) && LabelsIn(Creatinine, CorrectedLevelKeys) && LabelsIn(Ferritin, CorrectedLevelKeys)
  {
  }

  lemma CorrectedLabelsPart5()
    ensures LabelsIn(Ggt, CorrectedLevelKeys) && LabelsIn(Hemoglobin, CorrectedLevelKeys) && LabelsIn(FreeT4, CorrectedLevelKeys)
  {
  }

  lemma CorrectedLabelsPart6()
    ensures LabelsIn(Ast, CorrectedLevelKeys) && LabelsIn(Alt, CorrectedLevelKeys) && LabelsIn(Tsh, CorrectedLevelKeys)
  {
  }

  lemma CorrectedLabelsPart7()
    ensures LabelsIn(Urea, CorrectedLevelKeys) && LabelsIn(UrineProtein, CorrectedLevelKeys) && LabelsIn(VitaminB12, CorrectedLevelKeys)
  {
  }

  lemma CorrectedLabelsPart8()
    ensures LabelsIn(UricAcid, CorrectedLevelKeys) && LabelsIn(TransferrinSat, CorrectedLevelKeys)
  {
  }

  /** With the label added, every range label of the catalog is a level key. */
  lemma CorrectedLabelsCoverCatalog()
    ensures forall d :: d in Biomarkers ==> LabelsIn(d, CorrectedLevelKeys)
  {
    CorrectedLabelsPart1();
    CorrectedLabelsPart2();
    CorrectedLabelsPart3();
    CorrectedLabelsPart4();
    CorrectedLabelsPart5();
    CorrectedLabelsPart6();
    CorrectedLabelsPart7();
    CorrectedLabelsPart8();
  }

  /** With the label added, every range label of the catalog is translated in
      every language. */
  lemma CorrectedLevelKeysCoverCatalog(ct: CatalogTranslations, lang: Language, i: nat, r: BiomarkerRange)
    requires ShapedLike(ct, CorrectedLevelKeys)
    requires i < |Biomarkers| && r in Biomarkers[i].ranges
    ensures r.labelKey in CorrectedLevelKeys
    ensures TextLookup(ct, lang, LevelLabel, r.labelKey, None) == TextsOf(ct, lang).levels[r.labelKey]
  {
    CorrectedLabelsCoverCatalog();
    assert Biomarkers[i] in Biomarkers;
  }
}
