/**
 * The older normalizer, `AustinPermitsNormalizer` of pipeline.py: a smaller
 * alias table, four run counters, a geocoding step that counts a missing
 * postcode as a warning, and a `normalize_record` whose final constructor call
 * always raises.
 */
module Pipeline {
  import opened PyValues
  import opened FieldNames
  import opened Conflicts
  import opened Formatters
  import opened Dates
  import opened Quality
  import opened Permit
  import opened Services
  import opened Builders

  /** `_initialize_field_mappings`: 60 aliases, looked up by normalised key. */
  function PipelineAliases(n: string): Option<Field> {
    match |n|
    case 3 =>
      (match n
       case "lat" => Some(Latitude)
       case "lng" => Some(Longitude)
       case _ => None)
    case 4 =>
      (match n
       case "long" => Some(Longitude)
       case _ => None)
    case 6 =>
      (match n
       case "status" => Some(Status)
       case _ => None)
    case 7 =>
      (match n
       case "address" => Some(StreetAddress)
       case "zipcode" => Some(ZipCode)
       case _ => None)
    case 8 =>
      (match n
       case "permitid" => Some(PermitId)
       case "zip_code" => Some(ZipCode)
       case "latitude" => Some(Latitude)
       case "use_type" => Some(UseCategory)
       case _ => None)
    case 9 =>
      (match n
       case "permit_id" => Some(PermitId)
       case "permit_no" => Some(PermitNumber)
       case "longitude" => Some(Longitude)
       case "valuation" => Some(TotalValuation)
       case _ => None)
    case 10 =>
      (match n
       case "permit_num" => Some(PermitNumber)
       case "owner_name" => Some(ApplicantName)
       case "permit_fee" => Some(PermitFee)
       case "fee_amount" => Some(PermitFee)
       case "permittype" => Some(PermitType)
       case "work_class" => Some(WorkClass)
       case "issue_date" => Some(IssueDate)
       case _ => None)
    case 11 =>
      (match n
       case "permit_type" => Some(PermitType)
       case "description" => Some(WorkDescription)
       case "issued_date" => Some(IssueDate)
       case "date_issued" => Some(IssueDate)
       case "expire_date" => Some(ExpirationDate)
       case _ => None)
    case 12 =>
      (match n
       case "permitnumber" => Some(PermitNumber)
       case "original_zip" => Some(ZipCode)
       case "council_dist" => Some(CouncilDistrict)
       case "permit_class" => Some(WorkClass)
       case "use_category" => Some(UseCategory)
       case "applied_date" => Some(ApplicationDate)
       case _ => None)
    case 13 =>
      (match n
       case "permit_number" => Some(PermitNumber)
       case "original_city" => Some(City)
       case "scope_of_work" => Some(WorkDescription)
       case "permit_status" => Some(Status)
       case _ => None)
    case 14 =>
      (match n
       case "street_address" => Some(StreetAddress)
       case "original_state" => Some(State)
       case "license_number" => Some(ContractorLicense)
       case "applicant_name" => Some(ApplicantName)
       case "totalvaluation" => Some(TotalValuation)
       case "current_status" => Some(Status)
       case _ => None)
    case 15 =>
      (match n
       case "contractor_name" => Some(ContractorName)
       case "applicant_phone" => Some(ApplicantPhone)
       case "applicant_email" => Some(ApplicantEmail)
       case "total_valuation" => Some(TotalValuation)
       case "expiration_date" => Some(ExpirationDate)
       case _ => None)
    case 16 =>
      (match n
       case "contractor_phone" => Some(ContractorPhone)
       case "permit_type_desc" => Some(PermitType)
       case "work_description" => Some(WorkDescription)
       case "application_date" => Some(ApplicationDate)
       case _ => None)
    case 17 =>
      (match n
       case "original_address1" => Some(StreetAddress)
       case "applicant_company" => Some(ApplicantCompany)
       case "applicant_address" => Some(ApplicantAddress)
       case _ => None)
    case 18 =>
      (match n
       case "contractor_address" => Some(ContractorAddress)
       case _ => None)
    case 21 =>
      (match n
       case "council_district_code" => Some(CouncilDistrict)
       case "contractor_trade_name" => Some(ContractorName)
       case _ => None)
    case 23 =>
      (match n
       case "contractor_company_name" => Some(ContractorName)
       case "contractor_phone_number" => Some(ContractorPhone)
       case _ => None)
    case 25 =>
      (match n
       case "contractor_license_number" => Some(ContractorLicense)
       case _ => None)
    case _ => None
  }

  /** Every canonical name is absent from the table or maps to itself. */
  lemma PipelineAliasesClosed()
    ensures TableClosed(PipelineAliases)
  {
    forall f: Field
      ensures PipelineAliases(Name(f)) == None || PipelineAliases(Name(f)) == Some(f)
    {
      PipelineAliasFixed(f);
    }
  }

  lemma PipelineAliasFixed(f: Field)
    ensures PipelineAliases(Name(f)) == None || PipelineAliases(Name(f)) == Some(f)
  {
    match f
    case PermitNumber | PermitId | StreetAddress | City => PipelineAliasNames0();
    case State | ZipCode | CouncilDistrict | Latitude => PipelineAliasNames1();
    case Longitude | ContractorName | ContractorPhone | ContractorAddress => PipelineAliasNames2();
    case ContractorLicense | ApplicantName | ApplicantCompany | ApplicantPhone => PipelineAliasNames3();
    case ApplicantEmail | ApplicantAddress | TotalValuation | PermitFee => PipelineAliasNames4();
    case PermitType | WorkClass | WorkDescription | UseCategory => PipelineAliasNames5();
    case IssueDate | ExpirationDate | ApplicationDate | Status => PipelineAliasNames6();
  }

  // The literal lookups are split into small groups to keep each proof cheap.

  lemma PipelineAliasNames0()
    ensures PipelineAliases("permit_number") == Some(PermitNumber) && PipelineAliases("permit_id") == Some(PermitId)
    ensures PipelineAliases("street_address") == Some(StreetAddress) && PipelineAliases("city") == None
  {
  }

  lemma PipelineAliasNames1()
    ensures PipelineAliases("state") == None && PipelineAliases("zip_code") == Some(ZipCode)
    ensures PipelineAliases("council_district") == None && PipelineAliases("latitude") == Some(Latitude)
  {
  }

  lemma PipelineAliasNames2()
    ensures PipelineAliases("longitude") == Some(Longitude) && PipelineAliases("contractor_name") == Some(ContractorName)
    ensures PipelineAliases("contractor_phone") == Some(ContractorPhone) && PipelineAliases("contractor_address") == Some(ContractorAddress)
  {
  }

  lemma PipelineAliasNames3()
    ensures PipelineAliases("contractor_license") == None && PipelineAliases("applicant_name") == Some(ApplicantName)
    ensures PipelineAliases("applicant_company") == Some(ApplicantCompany) && PipelineAliases("applicant_phone") == Some(ApplicantPhone)
  {
  }

  lemma PipelineAliasNames4()
    ensures PipelineAliases("applicant_email") == Some(ApplicantEmail) && PipelineAliases("applicant_address") == Some(ApplicantAddress)
    ensures PipelineAliases("total_valuation") == Some(TotalValuation) && PipelineAliases("permit_fee") == Some(PermitFee)
  {
  }

  lemma PipelineAliasNames5()
    ensures PipelineAliases("permit_type") == Some(PermitType) && PipelineAliases("work_class") == Some(WorkClass)
    ensures PipelineAliases("work_description") == Some(WorkDescription) && PipelineAliases("use_category") == Some(UseCategory)
  {
  }

  lemma PipelineAliasNames6()
    ensures PipelineAliases("issue_date") == Some(IssueDate) && PipelineAliases("expiration_date") == Some(ExpirationDate)
    ensures PipelineAliases("application_date") == Some(ApplicationDate) && PipelineAliases("status") == Some(Status)
  {
  }

  /** `map_field_name` over this table is idempotent. */
  lemma PipelineMapFieldNameIdempotent(key: string)
    ensures MapFieldName(PipelineAliases, MapFieldName(PipelineAliases, key)) == MapFieldName(PipelineAliases, key)
  {
    PipelineAliasesClosed();
    MapFieldNameIdempotent(PipelineAliases, key);
  }

  // ---------------------------------------------------------------- configuration and counters

  /** `config["date_formats"]`: the three formats of `_load_config`, without microseconds. */
  const PipelineDateFormats: seq<Format> := [IsoDate, UsDate, IsoDateTime]

  /** `self.stats`. */
  datatype Stats = Stats(total_records: nat, normalized_records: nat, errors: nat, warnings: nat)

  /** One more warning when a step logged one. */
  function Warn(st: Stats, warned: bool): Stats {
    st.(warnings := st.warnings + if warned then 1 else 0)
  }

  // ---------------------------------------------------------------- ZIP codes

  /** The query `get_zip_code` sends: street and city as `str` renders them, then "US". */
  function PipelineQuery(street: Value, city: Value): string {
    PyStr(street) + ", " + PyStr(city) + ", US"
  }

  /**
   * `get_zip_code`: a raised request propagates; otherwise the postcode of
   * the first result, unvalidated, with a warning when it is missing or empty.
   */
  function GeocodeEffect(geocode: string -> Lookup, street: Value, city: Value, st: Stats): Effect<Option<string>, Stats> {
    match geocode(PipelineQuery(street, city))
    case RequestFailed => Effect(Raised, st)
    case Answered(p) => Effect(Ok(p), Warn(st, p.None? || p == Some("")))
  }

  /**
   * The lookup's answer is passed through as it is, without a format check,
   * and only a missing or empty postcode is counted, as a warning.
   */
  lemma GeocodeUnvalidated(geocode: string -> Lookup, street: Value, city: Value, st: Stats)
    ensures var e := GeocodeEffect(geocode, street, city, st);
      match geocode(PipelineQuery(street, city))
      case RequestFailed => e.result.Raised? && e.stats == st
      case Answered(p) =>
        e.result == Ok(p)
        && e.stats.(warnings := 0) == st.(warnings := 0)
        && (e.stats.warnings == st.warnings + 1 <==> p.None? || p.value == "")
        && (e.stats.warnings == st.warnings <==> p.Some? && p.value != "")
  {
  }

  /** `normalize_zip_code` as a value and the counters after it. */
  function ZipEffect(geocode: string -> Lookup, zip: Value, street: Value, city: Value, st: Stats): Effect<Option<string>, Stats> {
    if IsNA(zip) then
      if Truthy(street) && Truthy(city) then GeocodeEffect(geocode, street, city, st) else Effect(Ok(None), st)
    else Effect(Ok(ZipSearch(Strip(PyStr(zip)))), st)
  }

  /** A present ZIP is searched, never geocoded: a text with no five-digit run gives None. */
  lemma PresentZipNotGeocoded(geocode: string -> Lookup, zip: Value, street: Value, city: Value, st: Stats)
    requires !IsNA(zip)
    ensures var e := ZipEffect(geocode, zip, street, city, st);
      e.stats == st && e.result.Ok?
      && (e.result.value.None? <==> forall j :: !DigitsAt(Strip(PyStr(zip)), j, 5))
      && (e.result.value.Some? ==> IsZip(e.result.value.value))
  {
  }

  /** An absent ZIP is geocoded only when both street and city are truthy; otherwise nothing happens. */
  lemma AbsentZipNeedsStreetAndCity(geocode: string -> Lookup, zip: Value, street: Value, city: Value, st: Stats)
    requires IsNA(zip)
    ensures !(Truthy(street) && Truthy(city)) ==> ZipEffect(geocode, zip, street, city, st) == Effect(Ok(None), st)
    ensures Truthy(street) && Truthy(city) ==> ZipEffect(geocode, zip, street, city, st) == GeocodeEffect(geocode, street, city, st)
  {
  }

  /** `create_location_object` as a value: its only effect is that of `normalize_zip_code`. */
  function LocationEffect(services: Collaborators, record: map<string, Value>, st: Stats): Effect<Location, Stats> {
    var e := ZipEffect(services.geocode, Get(record, "zip_code", Null), Get(record, "street_address", Null),
                       Get(record, "city", Null), st);
    match e.result
    case Raised => Effect(Raised, e.stats)
    case Ok(z) => Effect(Ok(LocationOf(services, record, z)), e.stats)
  }

  /**
   * A record without a `city` key is never geocoded: the lookup receives
   * `record.get("city")`, which is None, although the `Location` built from
   * the same record says "Austin".
   */
  lemma MissingCityNotGeocoded(services: Collaborators, record: map<string, Value>, st: Stats)
    requires "city" !in record
    ensures LocationEffect(services, record, st).stats == st
    ensures LocationEffect(services, record, st).result.Ok?
    ensures LocationEffect(services, record, st).result.value.city == Str("Austin")
    ensures IsNA(Get(record, "zip_code", Null)) ==> LocationEffect(services, record, st).result.value.zip_code.None?
  {
  }

  // ---------------------------------------------------------------- the other sub-objects

  /** The counters after `create_valuation_object`: one warning per amount that does not parse. */
  function ValuationLogged(services: Collaborators, record: map<string, Value>, st: Stats): Stats {
    var st1 := Warn(st, CurrencyStep(services.parseFloat, Get(record, "total_valuation", Null)).warned);
    Warn(st1, CurrencyStep(services.parseFloat, Get(record, "permit_fee", Null)).warned)
  }

  /** The counters after `create_dates_object`: one warning per date that does not parse. */
  function DatesLogged(services: Collaborators, record: map<string, Value>, st: Stats): Stats {
    var st1 := Warn(st, DateStep(PipelineDateFormats, services.dateFallback, Get(record, "issue_date", Null)).warned);
    var st2 := Warn(st1, DateStep(PipelineDateFormats, services.dateFallback, Get(record, "expiration_date", Null)).warned);
    Warn(st2, DateStep(PipelineDateFormats, services.dateFallback, Get(record, "application_date", Null)).warned)
  }

  /** Together they add one warning per field that logged one, and touch no other counter. */
  lemma FieldsLoggedCount(services: Collaborators, record: map<string, Value>, st: Stats)
    ensures DatesLogged(services, record, ValuationLogged(services, record, st))
      == st.(warnings := st.warnings + FieldWarnings(services, PipelineDateFormats, record))
  {
  }

  // ---------------------------------------------------------------- normalize_record and normalize_dataset

  /**
   * The counters after `normalize_record`: the location step, and unless it
   * raised the valuation and date steps, then one error, because the
   * `NormalizedPermit` of pipeline.py has no `work_details` field.
   */
  function RecordEffect(services: Collaborators, raw: RawRecord, st: Stats): Stats {
    var cleaned := Cleaned(PipelineAliases, raw);
    var e := LocationEffect(services, cleaned, st);
    var st' := match e.result
      case Raised => e.stats
      case Ok(_) => DatesLogged(services, cleaned, ValuationLogged(services, cleaned, e.stats));
    st'.(errors := st'.errors + 1)
  }

  /** The location step changes at most the warnings, by at most one. */
  lemma LocationCounters(services: Collaborators, record: map<string, Value>, st: Stats)
    ensures var st' := LocationEffect(services, record, st).stats;
      st'.(warnings := 0) == st.(warnings := 0) && st.warnings <= st'.warnings <= st.warnings + 1
  {
    GeocodeUnvalidated(services.geocode, Get(record, "street_address", Null), Get(record, "city", Null), st);
  }

  /** Every record ends as an error; no record is counted as normalized or total; at most six warnings. */
  lemma RecordCounters(services: Collaborators, raw: RawRecord, st: Stats)
    ensures var st' := RecordEffect(services, raw, st);
      st'.errors == st.errors + 1 && st'.normalized_records == st.normalized_records
      && st'.total_records == st.total_records && st.warnings <= st'.warnings <= st.warnings + 6
  {
    var cleaned := Cleaned(PipelineAliases, raw);
    var e := LocationEffect(services, cleaned, st);
    LocationCounters(services, cleaned, st);
    FieldsLoggedCount(services, cleaned, e.stats);
  }

  /** What `normalize_record` does for each of `data` in turn. */
  function DatasetEffect(services: Collaborators, data: seq<RawRecord>, st: Stats): Stats {
    if data == [] then st
    else RecordEffect(services, data[|data| - 1], DatasetEffect(services, data[..|data| - 1], st))
  }

  lemma DatasetStep(services: Collaborators, data: seq<RawRecord>, i: int, st: Stats)
    requires 0 <= i < |data|
    ensures DatasetEffect(services, data[..i + 1], st) == RecordEffect(services, data[i], DatasetEffect(services, data[..i], st))
  {
    assert data[..i + 1][..i] == data[..i];
  }

  /** Over a whole run every record is an error and none is normalized. */
  lemma {:induction false} DatasetCounters(services: Collaborators, data: seq<RawRecord>, st: Stats)
    ensures var st' := DatasetEffect(services, data, st);
      st'.errors == st.errors + |data| && st'.normalized_records == st.normalized_records
      && st'.total_records == st.total_records && st.warnings <= st'.warnings <= st.warnings + 6 * |data|
  {
    if data != [] {
      DatasetCounters(services, data[..|data| - 1], st);
      RecordCounters(services, data[|data| - 1], DatasetEffect(services, data[..|data| - 1], st));
    }
  }

  /** `raw_data[:limit]` when `limit` is truthy, the whole list otherwise. */
  function Limited(data: seq<RawRecord>, limit: Option<int>): (r: seq<RawRecord>)
    ensures |r| <= |data| && r == data[..|r|]
  {
    match limit
    case None => data
    case Some(n) =>
      if n == 0 then data
      else if n > 0 then (if n < |data| then data[..n] else data)
      else (if |data| + n > 0 then data[..|data| + n] else [])
  }

  /** Python's slice: a positive limit keeps at most that many, a negative one drops that many from the end. */
  lemma LimitedLength(data: seq<RawRecord>, limit: Option<int>)
    ensures limit.None? || limit == Some(0) ==> Limited(data, limit) == data
    ensures limit.Some? && limit.value > 0 ==> |Limited(data, limit)| == if limit.value < |data| then limit.value else |data|
    ensures limit.Some? && limit.value < 0 ==> |Limited(data, limit)| == if |data| + limit.value > 0 then |data| + limit.value else 0
  {
  }

  // ---------------------------------------------------------------- the normalizer

  class Normalizer {
    const services: Collaborators
    var stats: Stats

    constructor(services: Collaborators)
      ensures this.services == services && stats == Stats(0, 0, 0, 0)
    {
      this.services := services;
      stats := Stats(0, 0, 0, 0);
    }

    /** `normalize_date`. */
    method NormalizeDate(value: Value) returns (r: Option<string>)
      modifies this
      ensures var p := DateStep(PipelineDateFormats, services.dateFallback, value); r == p.value && stats == Warn(old(stats), p.warned)
    {
      if IsBlank(value) {
        return None;
      }
      var text := Strip(PyStr(value));
      var parsed := TryFormats(PipelineDateFormats, text);
      if parsed.Some? {
        return Some(IsoText(parsed.value));
      }
      var fallback := services.dateFallback(text);
      if fallback.Some? {
        return Some(IsoText(fallback.value));
      }
      stats := stats.(warnings := stats.warnings + 1);
      return None;
    }

    /** `normalize_currency`. */
    method NormalizeCurrency(value: Value) returns (r: Option<real>)
      modifies this
      ensures var p := CurrencyStep(services.parseFloat, value); r == p.value && stats == Warn(old(stats), p.warned)
    {
      if IsNA(value) {
        return None;
      }
      var text := RemoveCurrencySymbols(Strip(PyStr(value)));
      text := DropSeparators(text);
      r := services.parseFloat(text);
      if r.None? {
        stats := stats.(warnings := stats.warnings + 1);
      }
    }

    /** `get_zip_code`. */
    method GetZipCode(street: Value, city: Value) returns (r: Outcome<Option<string>>)
      modifies this
      ensures Effect(r, stats) == GeocodeEffect(services.geocode, street, city, old(stats))
    {
      var answer := services.geocode(PipelineQuery(street, city));
      if answer.RequestFailed? {
        return Raised;
      }
      var zip := answer.postcode;
      if zip.None? || zip.value == "" {
        stats := stats.(warnings := stats.warnings + 1);
      }
      return Ok(zip);
    }

    /** `normalize_zip_code`. */
    method NormalizeZipCode(zip: Value, street: Value, city: Value) returns (r: Outcome<Option<string>>)
      modifies this
      ensures Effect(r, stats) == ZipEffect(services.geocode, zip, street, city, old(stats))
    {
      if IsNA(zip) {
        if Truthy(street) && Truthy(city) {
          r := GetZipCode(street, city);
          return;
        }
        return Ok(None);
      }
      var text := Strip(PyStr(zip));
      return Ok(ZipSearch(text));
    }

    /** `create_location_object`. */
    method CreateLocationObject(record: map<string, Value>) returns (r: Outcome<Location>)
      modifies this
      ensures Effect(r, stats) == LocationEffect(services, record, old(stats))
    {
      var zip := NormalizeZipCode(Get(record, "zip_code", Null), Get(record, "street_address", Null), Get(record, "city", Null));
      if zip.Raised? {
        return Raised;
      }
      r := Ok(Location(
        street_address := Get(record, "street_address", Null),
        city := Get(record, "city", Str("Austin")),
        state := Get(record, "state", Str("TX")),
        zip_code := zip.value,
        latitude := OrNone(services.toNumeric(Get(record, "latitude", Null))),
        longitude := OrNone(services.toNumeric(Get(record, "longitude", Null))),
        council_district := OrNone(services.toNumeric(Get(record, "council_district", Null))),
        census_tract := Get(record, "census_tract", Null)));
    }

    /** `create_valuation_object`. */
    method CreateValuationObject(record: map<string, Value>) returns (v: Valuation)
      modifies this
      ensures v == ValuationOf(services, record) && stats == ValuationLogged(services, record, old(stats))
    {
      var total := NormalizeCurrency(Get(record, "total_valuation", Null));
      var fee := NormalizeCurrency(Get(record, "permit_fee", Null));
      v := Valuation(total, fee, "USD");
    }

    /** `create_dates_object`. */
    method CreateDatesObject(record: map<string, Value>) returns (d: PermitDates)
      modifies this
      ensures d == DatesOf(services, PipelineDateFormats, record) && stats == DatesLogged(services, record, old(stats))
    {
      var issued := NormalizeDate(Get(record, "issue_date", Null));
      var expires := NormalizeDate(Get(record, "expiration_date", Null));
      var applied := NormalizeDate(Get(record, "application_date", Null));
      d := PermitDates(issued, expires, applied);
    }

    /**
     * `normalize_record`: every argument of the `NormalizedPermit` call is
     * evaluated, side effects included, before the call itself raises
     * `TypeError` on `work_details`; the handler counts an error.
     */
    method NormalizeRecord(raw: RawRecord) returns (r: Option<NormalizedPermit>)
      modifies this
      ensures r == None
      ensures stats == RecordEffect(services, raw, old(stats))
    {
      var cleaned := HandleDuplicateFields(PipelineAliases, raw);
      var permitId := PermitIdOf(services.hashRecord(raw), cleaned);
      var location := CreateLocationObject(cleaned);
      if location.Raised? {
        stats := stats.(errors := stats.errors + 1);
        return None;
      }
      var contractor := ContractorOf(cleaned);
      var applicant := ApplicantOf(cleaned);
      var valuation := CreateValuationObject(cleaned);
      var work := WorkDetailsOf(cleaned);
      var dates := CreateDatesObject(cleaned);
      var score := QualityScore(cleaned);
      KeywordsFit();
      assert !AcceptsKeywords(PipelinePermitFields, RecordKeywords);
      stats := stats.(errors := stats.errors + 1);
      return None;
    }

    /**
     * The counter handling of `normalize_dataset` over already loaded
     * records: `total_records` is set once, before the limit; no record comes
     * back normalized, so the returned list stays empty.
     */
    method NormalizeDataset(rawData: seq<RawRecord>, limit: Option<int>) returns (records: seq<NormalizedPermit>, result: Stats)
      modifies this
      ensures records == []
      ensures stats == DatasetEffect(services, Limited(rawData, limit), old(stats).(total_records := |rawData|))
      ensures result == stats
    {
      stats := stats.(total_records := |rawData|);
      ghost var start := stats;
      var data := rawData;
      if limit.Some? && limit.value != 0 {
        var n := limit.value;
        if n > 0 {
          data := if n < |rawData| then rawData[..n] else rawData;
        } else {
          data := if |rawData| + n > 0 then rawData[..|rawData| + n] else [];
        }
      }
      assert data == Limited(rawData, limit);
      records := [];
      for i := 0 to |data|
        invariant stats == DatasetEffect(services, data[..i], start)
      {
        DatasetStep(services, data, i, start);
        var normalized := NormalizeRecord(data[i]);
      }
      assert data[..|data|] == data;
      result := stats;
    }
  }
}
