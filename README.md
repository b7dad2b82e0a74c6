# HealthSpan scoring engine — a Dafny model

HealthSpan is a browser app in which a user enters a basic profile (age,
gender, height, weight, blood group) and lab results for 23 biomarkers.

The app evaluates each result against the biomarker's reference ranges and
derives three headline metrics:
- a health score from 0 to 100;
- a "biological age";
- a body-mass index.

The overview page lists the results that need attention. Every text is
shown in English, Brazilian Portuguese or Spanish.

This project models the logic behind those screens. The modules are:

- `Types` (`types.dfy`): risk levels, categories, reference ranges, catalog
  entries, the profile with its nullable fields, and recorded results.
  - Numbers are exact `real`s.
  - A nullable number is an `Option<real>`.
  - JavaScript truthiness of such a number (absent or zero is falsy) is the
    predicate `Truthy`.
  - A range's `label` field is called `labelKey`, because `label` is a
    reserved word in Dafny.
- `Catalog` (`catalog.dfy`): the 23 catalog entries as constants, in source
  order. It also proves facts about them:
  - the ids are distinct;
  - each entry's ranges are ascending;
  - every entry has a recommendation.
- `HealthLogic` (`health_logic.dfy`): BMI, the first-match range evaluator,
  the health score and the biological age.
  - Each loop of the original is a `method` proved equal to a specification
    function.
  - Order independence and per-level monotonicity are proved on those
    functions.
  - `Math.round(x)` is `Floor(x + 0.5)`.
- `BiomarkerList` (`biomarker_list.dfy`), covering the exam-entry screen:
  - the update/remove/append of a result by id;
  - the category tabs and the category filter;
  - the reference-range caption.
- `Dashboard` (`dashboard.dfy`), covering the overview page:
  - the profile gate and the flagged-results list;
  - the score and BMI captions;
  - the younger/older comparison and the "add more exams" hint.
- `I18n` (`i18n.dfy`):
  - `t`: string lookup with English fallback, then `{name}` parameters,
    each filling the first occurrence, in entry order;
  - `tb`: the category/level/biomarker text lookup with its key fallbacks.

  The translation tables are parameters. Their key sets, which decide every
  fallback, are constants that match the source.
- `Scenarios` (`scenarios.dfy`): concrete evaluations on the shipped catalog.

The calculators read the module constant `BIOMARKERS` in the original. Here
the catalog is a parameter of `HealthScore`, `BiologicalAge`, `OutOfRange`
and their relatives. Every property is therefore proved for any catalog, and
the scenarios instantiate it with `Catalog.Biomarkers`.

## Model

| member | source | states |
|---|---|---|
| HealthLogic.CalculateBmi | src/healthLogic.ts:4-8 | the result is 0 exactly when height or weight is absent or zero; otherwise bmi × (height/100)² equals the weight |
| HealthLogic.BmiExcess | src/healthLogic.ts:26-30 | the BMI penalty base is non-negative; it is 0 exactly when the BMI is not computable or lies in [18.5, 25]; it equals bmi − 25 above the band and 18.5 − bmi below it |
| HealthLogic.Evaluate | src/healthLogic.ts:10-19 | a returned range is an element of the definition's ranges that contains the value, and no earlier range contains it; None exactly when no range contains the value |
| HealthLogic.EvaluateBiomarker | src/healthLogic.ts:10-19 | the early-return scan over the ranges returns exactly the first-match range, or None |
| HealthLogic.GapUnmatched | src/constants.ts:10-14 | with ascending ranges, a value strictly between one range's max and the next range's min matches no range |
| HealthLogic.ResultLevel | src/healthLogic.ts:34-37 | a level is the level of the first matching range (`Evaluate`) of the first catalog entry with the result's id (`Find`); an id missing from the catalog gives no level; no level exactly when the id is not found or no range of the found entry contains the value |
| HealthLogic.Weight | src/healthLogic.ts:39-44 | a level's weight is 0 exactly for normal, negative exactly for optimal and positive exactly for borderline, high and critical; deductions lie in [−1, 15] and age adjustments in [−0.5, 3] |
| HealthLogic.WeightGrowsWithSeverity | src/healthLogic.ts:39-44 | in both accumulators the weights rise strictly from optimal through normal, borderline and high to critical |
| HealthLogic.TotalBounds | src/healthLogic.ts:33-46 | the accumulated deductions of n results lie in [−n, 15n] and the age adjustments in [−0.5n, 3n] |
| HealthLogic.TotalAppend | src/healthLogic.ts:33-46 | appending a result adds exactly its contribution (3/8/15 for borderline/high/critical, −1 for optimal, 0 otherwise) to the accumulated deductions |
| HealthLogic.TotalRemove | src/healthLogic.ts:33-46 | removing any one result from the sum subtracts exactly its contribution |
| HealthLogic.TotalPermutation | src/healthLogic.ts:33-46 | the accumulated sum is the same for any two result lists that are permutations of each other |
| HealthLogic.Round | src/healthLogic.ts:48 | Math.round returns the integer n with n − 0.5 ≤ x < n + 0.5 |
| HealthLogic.RoundMonotone | src/healthLogic.ts:48 | rounding is monotone |
| HealthLogic.HealthScore | src/healthLogic.ts:21-49 | the score is an integer in [0, 100]; it is 100 exactly when the raw score is at least 99.5 and 0 exactly when it is below 0.5; in between, the raw score lies within 0.5 of it |
| HealthLogic.CalculateHealthScore | src/healthLogic.ts:21-49 | the loop that accumulates deductions result by result returns the health score |
| HealthLogic.RoundAge | src/healthLogic.ts:79 | the rounded age is at least 1 and a multiple of 0.1; from 0.95 on it lies within 0.05 of the raw age; below that it is 1 |
| HealthLogic.BiologicalAge | src/healthLogic.ts:51-80 | 0 when the age is absent or zero; otherwise at least 1, a multiple of 0.1, and the raw age rounded to one decimal |
| HealthLogic.CalculateBiologicalAge | src/healthLogic.ts:51-80 | the loop that adjusts the age result by result returns the biological age |
| HealthLogic.PermutationInvariant | src/healthLogic.ts:33-46 | reordering the results changes neither the health score nor the biological age |
| HealthLogic.AppendedResultScoreEffect | src/healthLogic.ts:39-44 | appending a borderline/high/critical/optimal result moves the raw score by −3/−8/−15/+1; an unknown, unmatched or normal result leaves it unchanged |
| HealthLogic.AppendedResultAgeEffect | src/healthLogic.ts:70-74 | appending a borderline/high/critical/optimal result moves the raw age by +0.5/+1.5/+3/−0.5; an unknown, unmatched or normal result leaves it unchanged |
| HealthLogic.ConcerningResultMonotone | src/healthLogic.ts:39-42 | a borderline, high or critical result never raises the score and never lowers the biological age |
| HealthLogic.OptimalResultMonotone | src/healthLogic.ts:43 | an optimal result never lowers the score and never raises the biological age |
| Catalog.Find | src/healthLogic.ts:34 | `BIOMARKERS.find`: a found entry is the first entry of the catalog with the requested id; None exactly when no entry has that id |
| Catalog.MaxAscending | src/constants.ts:10-14 | in ascending ranges the upper bounds never decrease |
| Catalog.MinAscending | src/constants.ts:10-14 | in ascending ranges the lower bounds never decrease |
| Catalog.CatalogRangesAscending | src/constants.ts:3-317 | every entry's ranges are non-empty and ascending: the first is unbounded below, the last unbounded above, each closed range has min ≤ max, and each max ≤ the next min |
| Catalog.CatalogIdsDistinct | src/constants.ts:3-317 | the catalog has 23 entries with pairwise distinct ids |
| Catalog.CatalogHasRecommendations | src/constants.ts:3-317 | every entry carries a recommendation |
| BiomarkerList.FindIndex | src/components/BiomarkerList.tsx:29 | `findIndex` by id: the first index holding that id, None exactly when no result has it |
| BiomarkerList.WithoutId | src/components/BiomarkerList.tsx:25 | the filtered list holds exactly the results whose id differs, and is no longer |
| BiomarkerList.WithoutIdDistributes | src/components/BiomarkerList.tsx:25 | the filter distributes over concatenation, so it keeps the original order |
| BiomarkerList.WithoutIdKeepsUnique | src/components/BiomarkerList.tsx:25 | removing an id keeps the list free of duplicate ids |
| BiomarkerList.HandleInputChange | src/components/BiomarkerList.tsx:22-37 | non-numeric input removes the id; a number for a present id replaces only the value at the first index, keeping its id and date, the length and every other entry; a number for an absent id appends one record; afterwards the id's first record holds the number; at most one record per id is preserved |
| BiomarkerList.Distinct | src/components/BiomarkerList.tsx:39 | `Array.from(new Set(s))` holds exactly the elements of s, each once |
| BiomarkerList.DistinctInFirstAppearanceOrder | src/components/BiomarkerList.tsx:39 | the distinct elements are ordered by their first position in s |
| BiomarkerList.CategoriesOf | src/components/BiomarkerList.tsx:39 | the catalog's categories, one per entry, in catalog order |
| BiomarkerList.Categories | src/components/BiomarkerList.tsx:39 | the tab list starts with All, contains a category tab exactly when some entry has that category, has no repeated tab, and orders the category tabs by the first catalog entry of each category |
| BiomarkerList.WithCategory | src/components/BiomarkerList.tsx:43 | the filtered catalog holds exactly the entries of that category |
| BiomarkerList.WithCategoryDistributes | src/components/BiomarkerList.tsx:43 | the category filter distributes over concatenation, so catalog order is kept |
| BiomarkerList.FilteredBiomarkers | src/components/BiomarkerList.tsx:41-43 | the All tab shows the whole catalog; a category tab shows exactly the entries of that category, and is the order-keeping filter `WithCategory` |
| BiomarkerList.FormatRange | src/components/BiomarkerList.tsx:152 | the caption as printed. A two-sided caption covers exactly the values the range matches. A one-sided caption ("> min" or "< max") leaves out its own bound, which the range matches. Away from the bounds every caption covers exactly the range's values |
| BiomarkerList.FormatRangeMisstatesInclusiveBound | src/components/BiomarkerList.tsx:152 | glucose 126 evaluates to the catalog's "Diabetes" range, whose "> 126" caption leaves it out; glucose 70 evaluates to "Hypoglycemia", whose "< 70" caption leaves it out |
| BiomarkerList.FormatRangeInclusive | src/components/BiomarkerList.tsx:152 | the corrected caption covers exactly the values the range matches, bounds included |
| Dashboard.ProfileComplete | src/components/Dashboard.tsx:20 | the profile is complete exactly when the age is present and non-zero and the BMI is computable (non-zero) |
| Dashboard.FlagOf | src/components/Dashboard.tsx:42-50 | a result is flagged exactly when its id is in the catalog and it evaluates to a borderline, high or critical range; the entry carries that definition and range |
| Dashboard.OutOfRange | src/components/Dashboard.tsx:42-50 | every listed entry is the flag of some result, and every flagged result is listed |
| Dashboard.OutOfRangeDistributes | src/components/Dashboard.tsx:42-50 | the list distributes over concatenation of the results, so it follows their order |
| Dashboard.UnflaggedDeductionsNonPositive | src/healthLogic.ts:39-44 | with no flagged result, the results' deductions sum to at most 0 |
| Dashboard.NothingFlaggedFullScore | src/components/Dashboard.tsx:168 | an empty attention list and a BMI inside [18.5, 25] give a score of 100 |
| Dashboard.ImperfectScoreHasFlag | src/components/Dashboard.tsx:168 | a score below 100 with a BMI inside [18.5, 25] implies the attention list is non-empty |
| Dashboard.ShowAddMoreHint | src/components/Dashboard.tsx:168-174 | the hint shows only with nothing flagged and at most four results, and is hidden otherwise |
| Dashboard.ScoreBandOf | src/components/Dashboard.tsx:90-93 | the caption is excellent for ≥ 90, good for 75–89, fair for 50–74 and poor below 50 |
| Dashboard.ScoreBandMonotone | src/components/Dashboard.tsx:90-93 | a higher score never gets a worse caption |
| Dashboard.BmiBandOf | src/components/Dashboard.tsx:153-155 | underweight below 18.5, normal in [18.5, 25), overweight in [25, 30), obese from 30 |
| Dashboard.BmiBandMatchesPenalty | src/components/Dashboard.tsx:153-155 | the BMI carries no score penalty exactly when it is captioned normal or is exactly 25 |
| Dashboard.CompareAges | src/components/Dashboard.tsx:39-40 | "younger" exactly when bioAge < age; age plus the gap is bioAge |
| Dashboard.Abs | src/components/Dashboard.tsx:124 | the displayed difference is non-negative and equals the gap or its negation |
| Dashboard.NoOptimalAdjustmentNonNegative | src/healthLogic.ts:70-74 | without an optimal result, the age adjustments sum to at least 0 |
| Dashboard.RoundAgeKeepsLowerBound | src/healthLogic.ts:79 | rounding to one decimal never goes below an age of at least 1 that has at most one decimal |
| Dashboard.YoungerNeedsOptimalResult | src/components/Dashboard.tsx:39-40 | for an age with at most one decimal, the card reads "younger" only if some result is optimal |
| Dashboard.Render | src/components/Dashboard.tsx:20-175 | the welcome prompt is shown exactly when age, height or weight is absent or zero. Otherwise the overview shows the health score, its caption, the biological age, the BMI, its caption, the flagged list, the age comparison and the hint, each as its own function defines it. So the score is in [0, 100], the age is at least 1 and the BMI is consistent with height and weight. "Younger" is shown exactly when bioAge < age. The hint is shown exactly when nothing is flagged and there are fewer than 5 results. The score is 100 when nothing is flagged and the BMI is in band |
| I18n.Lookup | src/i18n.tsx:644 | the current language's string when present and non-empty, otherwise the English one |
| I18n.LookupFallbackNonEmpty | src/i18n.tsx:644 | English looks up its own string, and a non-empty English string never yields an empty result |
| I18n.IndexOf | src/i18n.tsx:647 | the first occurrence of the pattern, None exactly when it does not occur |
| I18n.ReplaceFirst | src/i18n.tsx:647 | without an occurrence the string is unchanged; otherwise only the first occurrence is replaced: the prefix before it and the suffix after it are kept, and the length changes by the size difference |
| I18n.Placeholder | src/i18n.tsx:647 | the pattern of parameter k is k between braces |
| I18n.ApplyParams | src/i18n.tsx:645-649 | no parameters leave the string as it is; a single parameter fills the first occurrence of its placeholder (`ApplyParamsAppend` gives the composition of longer lists) |
| I18n.ApplyParamsWithoutPlaceholders | src/i18n.tsx:645-649 | a template containing none of the parameters' placeholders comes back unchanged |
| I18n.ApplyParamsAppend | src/i18n.tsx:645-649 | applying a parameter list is applying its two halves one after the other |
| I18n.RepeatedPlaceholderFilledOnce | src/i18n.tsx:647 | a placeholder that occurs twice is filled only at its first occurrence |
| I18n.EarlierValueScannedByLaterParameter | src/i18n.tsx:646-648 | a placeholder inside an earlier parameter's value is filled by a later parameter |
| I18n.Translate | src/i18n.tsx:643-651 | without parameters the looked-up string; with parameters, the parameters applied to it in entry order |
| I18n.TextLookup | src/i18n.tsx:653-669 | the full `tb` case analysis: for categories and levels, the current-language text or else the key; for biomarkers without a field, the key; for an id missing in the current language, the key; for an empty current field, the English field, or the key when English lacks the id |
| I18n.CategoryKey | src/types.ts:24 | every category's key is one of the five category keys |
| I18n.CategoryKeyBijective | src/types.ts:24 | distinct categories have distinct keys, and each of the five keys belongs to a category |
| I18n.SpanishKeysFirstTen | src/i18n.tsx:566-616 | a catalog entry has a Spanish translation exactly when it is one of the first ten |
| I18n.FullLanguagesTranslateCatalog | src/i18n.tsx:189-518 | in English and Brazilian Portuguese every catalog entry's texts and category name come from the table |
| I18n.SpanishShowsRawIds | src/i18n.tsx:655-667 | in Spanish the thirteen later entries show their raw id as every text, with no English fallback |
| I18n.SpanishTranslatedEntries | src/i18n.tsx:566-616 | the first ten entries show their Spanish texts |
| I18n.LowHyperthyroidismNotALevelKey | src/i18n.tsx:197-235 | the level tables have no "Low (Hyperthyroidism)" entry |
| I18n.TshLowLabelUntranslated | src/constants.ts:242 | the TSH label "Low (Hyperthyroidism)" is shown untranslated in every language, and the TSH entry has a label outside the level tables |
| I18n.CorrectedLabelsCoverCatalog | src/constants.ts:3-317 | with that label added to the level keys, every range label of the catalog is a level key |
| I18n.CorrectedLevelKeysCoverCatalog | src/i18n.tsx:662-663 | with that label added, every range label of the catalog is translated in every language |
| Scenarios.BmiExamples | src/healthLogic.ts:4-8 | 175 cm and 70 kg give 70/1.75², about 22.86; a zero or missing height or weight gives 0 |
| Scenarios.EmptyResults | src/healthLogic.ts:21-80 | no results and an in-band BMI give a score of 100 and a biological age equal to the age |
| Scenarios.GlucoseSeventyIsHypoglycemia | src/constants.ts:11-12 | glucose 70 lies in both the first and the second range, and evaluates to the first, critical "Hypoglycemia" |
| Scenarios.GlucoseLevels | src/constants.ts:12-14 | glucose 130 evaluates to high "Diabetes" and 80 to optimal |
| Scenarios.GapValuesUnmatched | src/constants.ts:12-13 | glucose 99.5 and HbA1c 5.65 fall between ranges and evaluate to nothing |
| Scenarios.HighGlucoseScore | src/healthLogic.ts:41 | one glucose result of 130 gives a score of 92 |
| Scenarios.OptimalGlucoseScore | src/healthLogic.ts:43-48 | one glucose result of 80 gives a raw score of 101, capped to 100 |
| Scenarios.LowGlucoseAdjustment | src/healthLogic.ts:73 | a glucose of 60 is critical and adds three years |
| Scenarios.CriticalResultAddsThreeYears | src/healthLogic.ts:51-80 | age 40, BMI exactly 25 and one critical result give a biological age of 43 |
| Scenarios.DashboardWithHighGlucose | src/components/Dashboard.tsx:42-50 | with that glucose result the overview shows 92, captioned excellent, with one "Diabetes" entry and no hint |
| Scenarios.IncompleteProfileWelcome | src/components/Dashboard.tsx:20 | a profile without weight, or with age 0, only gets the welcome prompt |

## Left out

- Persistence, React state and context plumbing: `localStorage`, JSON
  (de)serialisation, tab state, the language provider. The language is a
  parameter.
- The profile form, the button widget, colours, icons, animations and JSX
  layout.
- Number formatting: `toFixed`, and `String(value)` for numeric parameters of
  `t`. Parameters are modelled as strings that are already formatted.
- `parseFloat`: the parsed input of `handleInputChange` is an
  `Option<real>`, with None for NaN. Partial parses, `Infinity` and
  floating-point rounding are not modelled.
- IEEE-754 effects: every quantity is an exact real, so rounding error in
  the BMI or the accumulations is not reproduced.
- The `$` replacement patterns of `String.prototype.replace`: parameter
  values are inserted literally.
- `new Date().toISOString()`: the timestamp of a new record is an opaque
  parameter.
- Property lookups that reach JavaScript's object prototype (a key such as
  `constructor`): the tables are plain maps.
- The translation strings themselves: the tables are parameters whose key
  sets match the source. Every string is non-empty in the source, which
  `I18n.Filled` assumes.
- The concrete order of the category tabs for the shipped catalog (metabolic,
  cardiovascular, inflammation, general, hormonal) is not evaluated.
  For any catalog, `BiomarkerList.Categories` states the ordering rule: the
  category tabs follow the first catalog entry of each category.
- I18n.Translate: the `t` lookup requires the key to be one of the English
  keys. The source's key type guarantees this; an unknown key, which would
  make `replace` fail on `undefined`, is not modelled.

## Findings

| source | as written | input that shows it | evidently intended | confidence | as-written member | corrected member |
|---|---|---|---|---|---|---|
| src/components/BiomarkerList.tsx:152 | a range with only a min is captioned "> min" and one with only a max "< max", although the evaluator treats both bounds as inclusive | fasting glucose 126 evaluates to the "Diabetes" range, whose caption reads "> 126"; 70 evaluates to "Hypoglycemia", captioned "< 70" | inclusive captions "≥ min" and "≤ max" | medium, not executed | BiomarkerList.FormatRangeMisstatesInclusiveBound | BiomarkerList.FormatRangeInclusive |
| src/constants.ts:242 | the TSH range below 0.3 is labelled "Low (Hyperthyroidism)", a key that no language's level table (src/i18n.tsx:197-235, 362-400, 527-565) contains, so `tb('levels', …)` falls back to the English key | a TSH of 0.2 viewed in Brazilian Portuguese or Spanish shows "Low (Hyperthyroidism)" untranslated | a level-table entry for that label in every language | medium, not executed | I18n.TshLowLabelUntranslated | I18n.CorrectedLevelKeysCoverCatalog |
