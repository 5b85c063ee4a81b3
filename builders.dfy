/**
 * The sub-objects both normalizer copies build from a cleaned record, and the
 * warnings their field normalisers log on the way.
 */
module Builders {
  import opened PyValues
  import opened Formatters
  import opened Dates
  import opened Permit
  import opened Services

  /** The `Location` of a cleaned record, given the ZIP `normalize_zip_code` produced. */
  function LocationOf(services: Collaborators, record: map<string, Value>, zip: Option<string>): Location {
    Location(
      street_address := Get(record, "street_address", Null),
      city := Get(record, "city", Str("Austin")),
      state := Get(record, "state", Str("TX")),
      zip_code := zip,
      latitude := OrNone(services.toNumeric(Get(record, "latitude", Null))),
      longitude := OrNone(services.toNumeric(Get(record, "longitude", Null))),
      council_district := OrNone(services.toNumeric(Get(record, "council_district", Null))),
      census_tract := Get(record, "census_tract", Null))
  }

  function ContractorOf(record: map<string, Value>): Contractor {
    Contractor(
      name := Get(record, "contractor_name", Null),
      license_number := Get(record, "contractor_license", Null),
      phone := NormalizePhone(Get(record, "contractor_phone", Null)),
      address := Get(record, "contractor_address", Null),
      company_type := Get(record, "contractor_type", Null))
  }

  function ApplicantOf(record: map<string, Value>): Applicant {
    Applicant(
      name := Get(record, "applicant_name", Null),
      company := Get(record, "applicant_company", Null),
      phone := NormalizePhone(Get(record, "applicant_phone", Null)),
      email := Get(record, "applicant_email", Null),
      address := Get(record, "applicant_address", Null))
  }

  function ValuationOf(services: Collaborators, record: map<string, Value>): Valuation {
    Valuation(
      total_valuation := CurrencyStep(services.parseFloat, Get(record, "total_valuation", Null)).value,
      permit_fee := CurrencyStep(services.parseFloat, Get(record, "permit_fee", Null)).value,
      currency := "USD")
  }

  function WorkDetailsOf(record: map<string, Value>): WorkDetails {
    WorkDetails(
      permit_type := Get(record, "permit_type", Null),
      work_class := Get(record, "work_class", Null),
      description := Get(record, "work_description", Null),
      use_category := Get(record, "use_category", Null))
  }

  function DatesOf(services: Collaborators, formats: seq<Format>, record: map<string, Value>): PermitDates {
    PermitDates(
      issue_date := DateStep(formats, services.dateFallback, Get(record, "issue_date", Null)).value,
      expiration_date := DateStep(formats, services.dateFallback, Get(record, "expiration_date", Null)).value,
      application_date := DateStep(formats, services.dateFallback, Get(record, "application_date", Null)).value)
  }

  /** The warnings the two amounts and three dates of a record log. */
  function FieldWarnings(services: Collaborators, formats: seq<Format>, record: map<string, Value>): (n: nat)
    ensures n <= 5
  {
    (if CurrencyStep(services.parseFloat, Get(record, "total_valuation", Null)).warned then 1 else 0)
    + (if CurrencyStep(services.parseFloat, Get(record, "permit_fee", Null)).warned then 1 else 0)
    + (if DateStep(formats, services.dateFallback, Get(record, "issue_date", Null)).warned then 1 else 0)
    + (if DateStep(formats, services.dateFallback, Get(record, "expiration_date", Null)).warned then 1 else 0)
    + (if DateStep(formats, services.dateFallback, Get(record, "application_date", Null)).warned then 1 else 0)
  }
}
