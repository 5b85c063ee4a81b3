/**
 * The canonical permit schema (the dataclasses of app/models/permit.py).
 * Fields the normalizer copies straight from the cleaned record keep the raw
 * `Value`; fields a normaliser computes carry its result type.
 */
module Permit {
  import opened PyValues

  datatype Location = Location(
    street_address: Value := Null,
    city: Value := Str("Austin"),
    state: Value := Str("TX"),
    zip_code: Option<string> := None,
    latitude: Value := Null,
    longitude: Value := Null,
    council_district: Value := Null,
    census_tract: Value := Null)

  datatype Contractor = Contractor(
    name: Value := Null,
    license_number: Value := Null,
    phone: Option<string> := None,
    address: Value := Null,
    company_type: Value := Null)

  datatype Applicant = Applicant(
    name: Value := Null,
    company: Value := Null,
    phone: Option<string> := None,
    email: Value := Null,
    address: Value := Null)

  datatype Valuation = Valuation(
    total_valuation: Option<real> := None,
    permit_fee: Option<real> := None,
    currency: string := "USD")

  datatype WorkDetails = WorkDetails(
    permit_type: Value := Null,
    work_class: Value := Null,
    description: Value := Null,
    use_category: Value := Null)

  /** ISO `YYYY-MM-DD` strings or None. */
  datatype PermitDates = PermitDates(
    issue_date: Option<string> := None,
    expiration_date: Option<string> := None,
    application_date: Option<string> := None)

  /** The `metadata` dict `normalize_record` attaches. */
  datatype Metadata = Metadata(normalized_at: string, original_fields_count: nat, data_quality_score: real)

  datatype NormalizedPermit = NormalizedPermit(
    permit_id: string,
    permit_number: Value := Null,
    status: Value := Null,
    location: Option<Location> := None,
    contractor: Option<Contractor> := None,
    applicant: Option<Applicant> := None,
    valuation: Option<Valuation> := None,
    work_details: Option<WorkDetails> := None,
    dates: Option<PermitDates> := None,
    metadata: Option<Metadata> := None)

  /** The keyword arguments the `NormalizedPermit` of app/models/permit.py accepts. */
  const PermitFields: set<string> :=
    {"permit_id", "permit_number", "status", "location", "contractor", "applicant", "valuation",
     "work_details", "dates", "metadata"}

  /**
   * The keyword arguments the older `NormalizedPermit` of pipeline.py accepts:
   * its nine fields, which do not include `work_details`.
   */
  const PipelinePermitFields: set<string> :=
    {"permit_id", "permit_number", "status", "location", "contractor", "applicant", "valuation",
     "dates", "metadata"}

  /** The keyword arguments both `normalize_record` copies pass, in order. */
  const RecordKeywords: seq<string> :=
    ["permit_id", "permit_number", "status", "location", "contractor", "applicant", "valuation",
     "work_details", "dates", "metadata"]

  /** A dataclass call raises `TypeError` exactly when some keyword is not one of its fields. */
  predicate AcceptsKeywords(fields: set<string>, keywords: seq<string>) {
    forall i | 0 <= i < |keywords| :: keywords[i] in fields
  }

  lemma KeywordsFit()
    ensures AcceptsKeywords(PermitFields, RecordKeywords)
    ensures !AcceptsKeywords(PipelinePermitFields, RecordKeywords)
  {
    assert RecordKeywords[7] == "work_details";
  }

  /** `Location()`: city "Austin", state "TX", everything else None. */
  lemma LocationDefaults()
    ensures Location() == Location(Null, Str("Austin"), Str("TX"), None, Null, Null, Null, Null)
  {
  }

  /** `Valuation()`: no amounts, currency "USD". */
  lemma ValuationDefaults()
    ensures Valuation() == Valuation(None, None, "USD")
  {
  }

  /** Only `permit_id` is required; every other field of a permit defaults to None. */
  lemma PermitDefaults(id: string)
    ensures NormalizedPermit(id) == NormalizedPermit(id, Null, Null, None, None, None, None, None, None, None)
    ensures Contractor() == Contractor(Null, Null, None, Null, Null)
    ensures Applicant() == Applicant(Null, Null, None, Null, Null)
    ensures WorkDetails() == WorkDetails(Null, Null, Null, Null)
    ensures PermitDates() == PermitDates(None, None, None)
  {
  }
}
