/** Domain types of the health tracker: risk levels, reference ranges, catalog
    entries, the user profile and recorded results. Numbers are exact reals;
    a nullable or optional number is an `Option<real>`. */
module Types {

  datatype Option<+T> = None | Some(value: T)

  /** The five risk levels, from best to worst. */
  datatype RiskLevel = Optimal | Normal | Borderline | High | Critical

  /** The five catalog categories. */
  datatype Category = Metabolic | Cardiovascular | Inflammation | Hormonal | General

  datatype Gender = Male | Female | Other

  datatype BloodGroup = APos | ANeg | BPos | BNeg | ABPos | ABNeg | OPos | ONeg | UnknownGroup

  /** A reference interval; an absent bound is unbounded on that side, a present
      bound is inclusive. */
  datatype BiomarkerRange = BiomarkerRange(min: Option<real>, max: Option<real>, level: RiskLevel, labelKey: string)

  datatype BiomarkerDefinition = BiomarkerDefinition(
    id: string,
    name: string,
    category: Category,
    unit: string,
    ranges: seq<BiomarkerRange>,
    description: string,
    recommendation: Option<string>)

  /** `age`, `heightCm` and `weightKg` are nullable; `bloodGroup` may be missing. */
  datatype UserProfile = UserProfile(
    age: Option<real>,
    gender: Gender,
    heightCm: Option<real>,
    weightKg: Option<real>,
    bloodGroup: Option<BloodGroup>)

  /** The latest recorded value of one biomarker; `date` is an opaque timestamp. */
  datatype BiomarkerResult = BiomarkerResult(biomarkerId: string, value: real, date: string)

  /** JavaScript truthiness of a `number | null`: null and zero are falsy. */
  predicate Truthy(x: Option<real>) {
    x.Some? && x.value != 0.0
  }

  /** True when the value lies inside the range (both bounds inclusive). */
  predicate InRange(value: real, range: BiomarkerRange) {
    (range.min.None? || value >= range.min.value) && (range.max.None? || value <= range.max.value)
  }

  /** Levels that the dashboard lists as needing attention. */
  predicate Concerning(level: RiskLevel) {
    level == Borderline || level == High || level == Critical
  }
}
