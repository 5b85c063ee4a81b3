/**
 * The current normalizer, `AustinPermitsNormalizer` of
 * app/services/normalizer.py: its alias table, its run counters and the
 * methods that update them while one raw record becomes a `NormalizedPermit`.
 */
module ApiNormalizer {
  import opened PyValues
  import opened FieldNames
  import opened Conflicts
  import opened Formatters
  import opened Dates
  import opened Quality
  import opened Permit
  import opened Services
  import opened Builders

  /** `_initialize_field_mappings`: 66 aliases, looked up by normalised key. */
  function Aliases(n: string): Option<Field> {
    match |n|
    case 3 =>
      (match n
       case "lat" => Some(Latitude)
       case "lng" => Some(Longitude)
       case _ => None)
    case 4 =>
      (match n
       case "long" => Some(Longitude)
       case _ => None)
    case 6 =>
      (match n
       case "status" => Some(Status)
       case _ => None)
    case 7 =>
      (match n
       case "address" => Some(StreetAddress)
       case "zipcode" => Some(ZipCode)
       case _ => None)
    case 8 =>
      (match n
       case "permitid" => Some(PermitId)
       case "zip_code" => Some(ZipCode)
       case "latitude" => Some(Latitude)
       case "use_type" => Some(UseCategory)
       case _ => None)
    case 9 =>
      (match n
       case "permit_id" => Some(PermitId)
       case "permit_no" => Some(PermitNumber)
       case "longitude" => Some(Longitude)
       case "valuation" => Some(TotalValuation)
       case _ => None)
    case 10 =>
      (match n
       case "permit_num" => Some(PermitNumber)
       case "owner_name" => Some(ApplicantName)
       case "permit_fee" => Some(PermitFee)
       case "fee_amount" => Some(PermitFee)
       case "permittype" => Some(PermitType)
       case "work_class" => Some(WorkClass)
       case "issue_date" => Some(IssueDate)
       case _ => None)
    case 11 =>
      (match n
       case "permit_type" => Some(PermitType)
       case "description" => Some(WorkDescription)
       case "issued_date" => Some(IssueDate)
       case "date_issued" => Some(IssueDate)
       case "expire_date" => Some(ExpirationDate)
       case "expiresdate" => Some(ExpirationDate)
       case "applieddate" => Some(ApplicationDate)
       case _ => None)
    case 12 =>
      (match n
       case "permitnumber" => Some(PermitNumber)
       case "original_zip" => Some(ZipCode)
       case "council_dist" => Some(CouncilDistrict)
       case "permit_class" => Some(WorkClass)
       case "use_category" => Some(UseCategory)
       case "applied_date" => Some(ApplicationDate)
       case _ => None)
    case 13 =>
      (match n
       case "permit_number" => Some(PermitNumber)
       case "original_city" => Some(City)
       case "scope_of_work" => Some(WorkDescription)
       case "permit_status" => Some(Status)
       case _ => None)
    case 14 =>
      (match n
       case "street_address" => Some(StreetAddress)
       case "original_state" => Some(State)
       case "license_number" => Some(ContractorLicense)
       case "applicant_name" => Some(ApplicantName)
       case "totalvaluation" => Some(TotalValuation)
       case "current_status" => Some(Status)
       case "status_current" => Some(Status)
       case _ => None)
    case 15 =>
      (match n
       case "permit_location" => Some(StreetAddress)
       case "contractor_name" => Some(ContractorName)
       case "applicant_phone" => Some(ApplicantPhone)
       case "applicant_email" => Some(ApplicantEmail)
       case "total_valuation" => Some(TotalValuation)
       case "expiration_date" => Some(ExpirationDate)
       case _ => None)
    case 16 =>
      (match n
       case "council_district" => Some(CouncilDistrict)
       case "contractor_phone" => Some(ContractorPhone)
       case "permit_type_desc" => Some(PermitType)
       case "work_description" => Some(WorkDescription)
       case "application_date" => Some(ApplicationDate)
       case _ => None)
    case 17 =>
      (match n
       case "original_address1" => Some(StreetAddress)
       case "applicant_company" => Some(ApplicantCompany)
       case "applicant_address" => Some(ApplicantAddress)
       case _ => None)
    case 18 =>
      (match n
       case "contractor_address" => Some(ContractorAddress)
       case _ => None)
    case 19 =>
      (match n
       case "permit_class_mapped" => Some(WorkClass)
       case _ => None)
    case 21 =>
      (match n
       case "council_district_code" => Some(CouncilDistrict)
       case "contractor_trade_name" => Some(ContractorName)
       case _ => None)
    case 23 =>
      (match n
       case "contractor_company_name" => Some(ContractorName)
       case "contractor_phone_number" => Some(ContractorPhone)
       case _ => None)
    case 25 =>
      (match n
       case "contractor_license_number" => Some(ContractorLicense)
       case _ => None)
    case _ => None
  }

  /** Every canonical name is absent from the table or maps to itself. */
  lemma AliasesClosed()
    ensures TableClosed(Aliases)
  {
    forall f: Field
      ensures Aliases(Name(f)) == None || Aliases(Name(f)) == Some(f)
    {
      AliasFixed(f);
    }
  }

  lemma AliasFixed(f: Field)
    ensures Aliases(Name(f)) == None || Aliases(Name(f)) == Some(f)
  {
    match f
    case PermitNumber | PermitId | StreetAddress | City => AliasNames0();
    case State | ZipCode | CouncilDistrict | Latitude => AliasNames1();
    case Longitude | ContractorName | ContractorPhone | ContractorAddress => AliasNames2();
    case ContractorLicense | ApplicantName | ApplicantCompany | ApplicantPhone => AliasNames3();
    case ApplicantEmail | ApplicantAddress | TotalValuation | PermitFee => AliasNames4();
    case PermitType | WorkClass | WorkDescription | UseCategory => AliasNames5();
    case IssueDate | ExpirationDate | ApplicationDate | Status => AliasNames6();
  }

  // The literal lookups are split into small groups to keep each proof cheap.

  lemma AliasNames0()
    ensures Aliases("permit_number") == Some(PermitNumber) && Aliases("permit_id") == Some(PermitId)
    ensures Aliases("street_address") == Some(StreetAddress) && Aliases("city") == None
  {
  }

  lemma AliasNames1()
    ensures Aliases("state") == None && Aliases("zip_code") == Some(ZipCode)
    ensures Aliases("council_district") == Some(CouncilDistrict) && Aliases("latitude") == Some(Latitude)
  {
  }

  lemma AliasNames2()
    ensures Aliases("longitude") == Some(Longitude) && Aliases("contractor_name") == Some(ContractorName)
    ensures Aliases("contractor_phone") == Some(ContractorPhone) && Aliases("contractor_address") == Some(ContractorAddress)
  {
  }

  lemma AliasNames3()
    ensures Aliases("contractor_license") == None && Aliases("applicant_name") == Some(ApplicantName)
    ensures Aliases("applicant_company") == Some(ApplicantCompany) && Aliases("applicant_phone") == Some(ApplicantPhone)
  {
  }

  lemma AliasNames4()
    ensures Aliases("applicant_email") == Some(ApplicantEmail) && Aliases("applicant_address") == Some(ApplicantAddress)
    ensures Aliases("total_valuation") == Some(TotalValuation) && Aliases("permit_fee") == Some(PermitFee)
  {
  }

  lemma AliasNames5()
    ensures Aliases("permit_type") == Some(PermitType) && Aliases("work_class") == Some(WorkClass)
    ensures Aliases("work_description") == Some(WorkDescription) && Aliases("use_category") == Some(UseCategory)
  {
  }

  lemma AliasNames6()
    ensures Aliases("issue_date") == Some(IssueDate) && Aliases("expiration_date") == Some(ExpirationDate)
    ensures Aliases("application_date") == Some(ApplicationDate) && Aliases("status") == Some(Status)
  {
  }

  /** `map_field_name` over this table is idempotent. */
  lemma MapFieldNameIdempotentHere(key: string)
    ensures MapFieldName(Aliases, MapFieldName(Aliases, key)) == MapFieldName(Aliases, key)
  {
    AliasesClosed();
    MapFieldNameIdempotent(Aliases, key);
  }

  // ---------------------------------------------------------------- configuration and counters

  /** `config["date_formats"]`, tried in this order. */
  const DateFormats: seq<Format> := [IsoDate, UsDate, IsoDateTime, IsoDateTimeMicro]

  /** `self.stats`. */
  datatype Stats = Stats(
    total_records: nat, normalized_records: nat, errors: nat, warnings: nat,
    zip_codes_filled: nat, geocoding_failures: nat)

  /** One more warning when a field normaliser logged one. */
  function Warn(st: Stats, warned: bool): Stats {
    st.(warnings := st.warnings + if warned then 1 else 0)
  }

  // ---------------------------------------------------------------- ZIP codes

  /** The query `get_zip_code` sends: the trimmed street, the city or "Austin", the state or "TX", then "US". */
  function GeocodeQuery(street: string, city: Value, state: Value): string {
    Strip(street) + ", " + (if Truthy(city) then PyStr(city) else "Austin") + ", "
      + (if Truthy(state) then PyStr(state) else "TX") + ", US"
  }

  /** The postcode `get_zip_code` accepts from a lookup: a non-empty one that starts with five digits. */
  function AcceptedPostcode(answer: Lookup): (r: Option<string>)
    ensures r.Some? <==> answer.Answered? && answer.postcode.Some? && ZipPrefix(answer.postcode.value)
    ensures r.Some? ==> answer == Answered(r)
  {
    match answer
    case Answered(Some(p)) => if p != "" && ZipPrefix(p) then Some(p) else None
    case _ => None
  }

  /** What `get_zip_code` does: no lookup for a blank street, else a filled postcode or a failure. */
  datatype ZipFill = NotAsked | Filled(zip: string) | NotFound

  function FillZip(geocode: string -> Lookup, street: string, city: Value, state: Value): (r: ZipFill)
    ensures r.NotAsked? <==> Strip(street) == ""
    ensures r.Filled? ==> ZipPrefix(r.zip) && geocode(GeocodeQuery(street, city, state)) == Answered(Some(r.zip))
    ensures r.NotFound? ==> AcceptedPostcode(geocode(GeocodeQuery(street, city, state))).None?
  {
    if street == "" || Strip(street) == "" then NotAsked
    else
      match AcceptedPostcode(geocode(GeocodeQuery(street, city, state)))
      case Some(z) => Filled(z)
      case None => NotFound
  }

  function FillResult(f: ZipFill): Option<string> {
    if f.Filled? then Some(f.zip) else None
  }

  /** The counter `get_zip_code` bumps for a lookup. */
  function CountFill(st: Stats, f: ZipFill): Stats {
    match f
    case NotAsked => st
    case Filled(_) => st.(zip_codes_filled := st.zip_codes_filled + 1)
    case NotFound => st.(geocoding_failures := st.geocoding_failures + 1)
  }

  /** A lookup bumps exactly one of the two geocoding counters and nothing else; no lookup bumps nothing. */
  lemma CountFillExactlyOne(st: Stats, f: ZipFill)
    ensures var st' := CountFill(st, f);
      st'.zip_codes_filled + st'.geocoding_failures == st.zip_codes_filled + st.geocoding_failures + (if f.NotAsked? then 0 else 1)
      && st'.(zip_codes_filled := 0, geocoding_failures := 0) == st.(zip_codes_filled := 0, geocoding_failures := 0)
      && (st'.zip_codes_filled > st.zip_codes_filled <==> f.Filled?)
  {
  }

  /** The ZIP found in the record's own `zip_code`: the leftmost match in its trimmed text. */
  function PresentZip(zip: Value): Option<string> {
    if IsNA(zip) then None
    else
      var text := Strip(PyStr(zip));
      if text == "" then None else ZipSearch(text)
  }

  /** Which path `normalize_zip_code` takes. */
  datatype ZipRoute = Extracted(zip: string) | AskGeocoder(street: string) | NoZip | StreetNotText

  function RouteZip(zip: Value, street: Value): (r: ZipRoute)
    ensures r.Extracted? <==> PresentZip(zip).Some?
    ensures r.Extracted? ==> PresentZip(zip) == Some(r.zip)
    ensures r.AskGeocoder? ==> street == Str(r.street) && Strip(r.street) != ""
    ensures r.StreetNotText? <==> PresentZip(zip).None? && Truthy(street) && !street.Str?
    ensures r.NoZip? <==> PresentZip(zip).None? && (!Truthy(street) || (street.Str? && Strip(street.s) == ""))
  {
    match PresentZip(zip)
    case Some(z) => Extracted(z)
    case None =>
      if !Truthy(street) then NoZip
      else
        match street
        case Str(s) => if Strip(s) != "" then AskGeocoder(s) else NoZip
        case _ => StreetNotText
  }

  /** `normalize_zip_code` as a value and the counters after it. */
  function ZipEffect(geocode: string -> Lookup, zip: Value, street: Value, city: Value, state: Value, st: Stats): Effect<Option<string>, Stats> {
    match RouteZip(zip, street)
    case Extracted(z) => Effect(Ok(Some(z)), st)
    case AskGeocoder(s) => var f := FillZip(geocode, s, city, state); Effect(Ok(FillResult(f)), CountFill(st, f))
    case NoZip => Effect(Ok(None), st)
    case StreetNotText => Effect(Raised, st)
  }

  /** A ZIP already present is returned without consulting the geocoder. */
  lemma PresentZipWins(geocode: string -> Lookup, zip: Value, street: Value, city: Value, state: Value, st: Stats)
    requires PresentZip(zip).Some?
    ensures ZipEffect(geocode, zip, street, city, state, st) == Effect(Ok(PresentZip(zip)), st)
    ensures var z := PresentZip(zip).value; IsZip(z) && z == ZipSearch(Strip(PyStr(zip))).value
  {
  }

  /** The geocoder is consulted only for a street that is text and not blank, and then bumps one counter. */
  lemma GeocodeOnlyForStreet(geocode: string -> Lookup, zip: Value, street: Value, city: Value, state: Value, st: Stats)
    ensures var e := ZipEffect(geocode, zip, street, city, state, st); var r, st' := e.result, e.stats;
      st'.zip_codes_filled + st'.geocoding_failures
        == st.zip_codes_filled + st.geocoding_failures + (if RouteZip(zip, street).AskGeocoder? then 1 else 0)
    ensures var e := ZipEffect(geocode, zip, street, city, state, st); var r, st' := e.result, e.stats;
      r.Ok? && r.value.Some? && !RouteZip(zip, street).Extracted? ==> ZipPrefix(r.value.value)
  {
    match RouteZip(zip, street)
    case AskGeocoder(s) => CountFillExactlyOne(st, FillZip(geocode, s, city, state));
    case _ =>
  }

  // ---------------------------------------------------------------- create_objects

  /** The six objects `create_objects` returns. */
  datatype Objects = Objects(
    location: Location, contractor: Contractor, applicant: Applicant,
    valuation: Valuation, work_details: WorkDetails, dates: PermitDates)

  /** The objects for a cleaned record, given the ZIP `normalize_zip_code` produced. */
  function ObjectsOf(services: Collaborators, record: map<string, Value>, zip: Option<string>): Objects {
    Objects(LocationOf(services, record, zip), ContractorOf(record), ApplicantOf(record),
            ValuationOf(services, record), WorkDetailsOf(record), DatesOf(services, DateFormats, record))
  }

  /** The counters after the two amounts and the three dates are normalised, one call after another. */
  function FieldsLogged(services: Collaborators, record: map<string, Value>, st: Stats): Stats {
    var st1 := Warn(st, CurrencyStep(services.parseFloat, Get(record, "total_valuation", Null)).warned);
    var st2 := Warn(st1, CurrencyStep(services.parseFloat, Get(record, "permit_fee", Null)).warned);
    var st3 := Warn(st2, DateStep(DateFormats, services.dateFallback, Get(record, "issue_date", Null)).warned);
    var st4 := Warn(st3, DateStep(DateFormats, services.dateFallback, Get(record, "expiration_date", Null)).warned);
    Warn(st4, DateStep(DateFormats, services.dateFallback, Get(record, "application_date", Null)).warned)
  }

  /** Together they add one warning per field that logged one, and touch no other counter. */
  lemma FieldsLoggedCount(services: Collaborators, record: map<string, Value>, st: Stats)
    ensures FieldsLogged(services, record, st) == st.(warnings := st.warnings + FieldWarnings(services, DateFormats, record))
  {
  }

  /** `create_objects` as a value and the counters after it: a raise in `normalize_zip_code` stops it. */
  function Build(services: Collaborators, record: map<string, Value>, st: Stats): Effect<Objects, Stats> {
    var e := ZipEffect(services.geocode, Get(record, "zip_code", Null), Get(record, "street_address", Str("")),
                                Get(record, "city", Str("Austin")), Get(record, "state", Str("TX")), st);
    match e.result
    case Raised => Effect(Raised, e.stats)
    case Ok(z) => Effect(Ok(ObjectsOf(services, record, z)), FieldsLogged(services, record, e.stats))
  }

  /**
   * `create_objects` raises exactly when the street is truthy but not text
   * (`.strip()` is then an `AttributeError`), and then changes no counter;
   * otherwise it adds at most five warnings and at most one geocoding count,
   * and never touches the record counters.
   */
  lemma BuildEffects(services: Collaborators, record: map<string, Value>, st: Stats)
    ensures var route := RouteZip(Get(record, "zip_code", Null), Get(record, "street_address", Str("")));
      var e := Build(services, record, st); var r, st' := e.result, e.stats;
      (r.Raised? <==> route.StreetNotText?)
      && (r.Raised? ==> st' == st)
      && st'.total_records == st.total_records && st'.normalized_records == st.normalized_records && st'.errors == st.errors
      && st.warnings <= st'.warnings <= st.warnings + 5
      && st'.zip_codes_filled + st'.geocoding_failures == st.zip_codes_filled + st.geocoding_failures + (if route.AskGeocoder? then 1 else 0)
  {
    var zip, street := Get(record, "zip_code", Null), Get(record, "street_address", Str(""));
    FieldsLoggedCount(services, record, ZipEffect(services.geocode, zip, street, Get(record, "city", Str("Austin")), Get(record, "state", Str("TX")), st).stats);
    GeocodeOnlyForStreet(services.geocode, zip, street, Get(record, "city", Str("Austin")), Get(record, "state", Str("TX")), st);
    match RouteZip(zip, street)
    case AskGeocoder(s) => CountFillExactlyOne(st, FillZip(services.geocode, s, Get(record, "city", Str("Austin")), Get(record, "state", Str("TX"))));
    case _ =>
  }

  // ---------------------------------------------------------------- the normalizer

  class Normalizer {
    const services: Collaborators
    var stats: Stats

    constructor(services: Collaborators)
      ensures this.services == services && stats == Stats(0, 0, 0, 0, 0, 0)
    {
      this.services := services;
      stats := Stats(0, 0, 0, 0, 0, 0);
    }

    /** Every record counted so far ended either normalized or as an error. */
    ghost predicate Accounted()
      reads this
    {
      stats.normalized_records + stats.errors == stats.total_records
    }

    /** `normalize_date`. */
    method NormalizeDate(value: Value) returns (r: Option<string>)
      modifies this
      ensures var p := DateStep(DateFormats, services.dateFallback, value); r == p.value && stats == Warn(old(stats), p.warned)
    {
      if IsBlank(value) {
        return None;
      }
      var text := Strip(PyStr(value));
      var parsed := TryFormats(DateFormats, text);
      if parsed.Some? {
        return Some(IsoText(parsed.value));
      }
      var fallback := services.dateFallback(text);
      if fallback.Some? {
        return Some(IsoText(fallback.value));
      }
      stats := stats.(warnings := stats.warnings + 1);
      return None;
    }

    /** `normalize_currency`. */
    method NormalizeCurrency(value: Value) returns (r: Option<real>)
      modifies this
      ensures var p := CurrencyStep(services.parseFloat, value); r == p.value && stats == Warn(old(stats), p.warned)
    {
      if IsNA(value) {
        return None;
      }
      var text := RemoveCurrencySymbols(Strip(PyStr(value)));
      text := DropSeparators(text);
      r := services.parseFloat(text);
      if r.None? {
        stats := stats.(warnings := stats.warnings + 1);
      }
    }

    /** `get_zip_code`. */
    method GetZipCode(street: string, city: Value, state: Value) returns (r: Option<string>)
      modifies this
      ensures var f := FillZip(services.geocode, street, city, state); r == FillResult(f) && stats == CountFill(old(stats), f)
    {
      if street == "" || Strip(street) == "" {
        assert FillZip(services.geocode, street, city, state) == NotAsked;
        return None;
      }
      var answer := services.geocode(GeocodeQuery(street, city, state));
      if answer.Answered? && answer.postcode.Some? {
        var postcode := answer.postcode.value;
        if postcode != "" && ZipPrefix(postcode) {
          assert AcceptedPostcode(answer) == Some(postcode);
          assert FillZip(services.geocode, street, city, state) == Filled(postcode);
          stats := stats.(zip_codes_filled := stats.zip_codes_filled + 1);
          return Some(postcode);
        }
      }
      assert AcceptedPostcode(answer) == None;
      assert FillZip(services.geocode, street, city, state) == NotFound;
      stats := stats.(geocoding_failures := stats.geocoding_failures + 1);
      return None;
    }

    /** `normalize_zip_code`. */
    method NormalizeZipCode(zip: Value, street: Value, city: Value, state: Value) returns (r: Outcome<Option<string>>)
      modifies this
      ensures Effect(r, stats) == ZipEffect(services.geocode, zip, street, city, state, old(stats))
    {
      ghost var st := stats;
      match RouteZip(zip, street)
      case Extracted(z) =>
        r := Ok(Some(z));
        assert Effect(r, stats) == ZipEffect(services.geocode, zip, street, city, state, st);
      case AskGeocoder(s) =>
        var z := GetZipCode(s, city, state);
        r := Ok(z);
        assert Effect(r, stats) == ZipEffect(services.geocode, zip, street, city, state, st);
      case NoZip =>
        r := Ok(None);
        assert Effect(r, stats) == ZipEffect(services.geocode, zip, street, city, state, st);
      case StreetNotText =>
        r := Raised;
        assert Effect(r, stats) == ZipEffect(services.geocode, zip, street, city, state, st);
    }

    /** `create_objects`: the calls in the order Python evaluates them. */
    method CreateObjects(record: map<string, Value>) returns (r: Outcome<Objects>)
      modifies this
      ensures Effect(r, stats) == Build(services, record, old(stats))
    {
      var zip := NormalizeZipCode(Get(record, "zip_code", Null), Get(record, "street_address", Str("")),
                                  Get(record, "city", Str("Austin")), Get(record, "state", Str("TX")));
      if zip.Raised? {
        return Raised;
      }
      var location := Location(
        street_address := Get(record, "street_address", Null),
        city := Get(record, "city", Str("Austin")),
        state := Get(record, "state", Str("TX")),
        zip_code := zip.value,
        latitude := OrNone(services.toNumeric(Get(record, "latitude", Null))),
        longitude := OrNone(services.toNumeric(Get(record, "longitude", Null))),
        council_district := OrNone(services.toNumeric(Get(record, "council_district", Null))),
        census_tract := Get(record, "census_tract", Null));
      var contractor := Contractor(
        name := Get(record, "contractor_name", Null),
        license_number := Get(record, "contractor_license", Null),
        phone := NormalizePhone(Get(record, "contractor_phone", Null)),
        address := Get(record, "contractor_address", Null),
        company_type := Get(record, "contractor_type", Null));
      var applicant := Applicant(
        name := Get(record, "applicant_name", Null),
        company := Get(record, "applicant_company", Null),
        phone := NormalizePhone(Get(record, "applicant_phone", Null)),
        email := Get(record, "applicant_email", Null),
        address := Get(record, "applicant_address", Null));
      var total := NormalizeCurrency(Get(record, "total_valuation", Null));
      var fee := NormalizeCurrency(Get(record, "permit_fee", Null));
      var valuation := Valuation(total, fee, "USD");
      var work := WorkDetails(
        permit_type := Get(record, "permit_type", Null),
        work_class := Get(record, "work_class", Null),
        description := Get(record, "work_description", Null),
        use_category := Get(record, "use_category", Null));
      var issued := NormalizeDate(Get(record, "issue_date", Null));
      var expires := NormalizeDate(Get(record, "expiration_date", Null));
      var applied := NormalizeDate(Get(record, "application_date", Null));
      var dates := PermitDates(issued, expires, applied);
      r := Ok(Objects(location, contractor, applicant, valuation, work, dates));
    }

    /** `normalize_record`. `now` is `datetime.now().isoformat()`. */
    method NormalizeRecord(raw: RawRecord, now: string) returns (r: Option<NormalizedPermit>)
      modifies this
      ensures var cleaned := Cleaned(Aliases, raw);
        var e := Build(services, cleaned, old(stats).(total_records := old(stats).total_records + 1));
        var st := e.stats;
        match e.result
        case Raised => r == None && stats == st.(errors := st.errors + 1)
        case Ok(o) =>
          stats == st.(normalized_records := st.normalized_records + 1)
          && r == Some(NormalizedPermit(
            PermitIdOf(services.hashRecord(raw), cleaned), Get(cleaned, "permit_number", Null), Get(cleaned, "status", Null),
            Some(o.location), Some(o.contractor), Some(o.applicant), Some(o.valuation), Some(o.work_details), Some(o.dates),
            Some(Metadata(now, |raw|, Score(cleaned)))))
      ensures stats.total_records == old(stats).total_records + 1
      ensures r.Some? ==> stats.normalized_records == old(stats).normalized_records + 1 && stats.errors == old(stats).errors
      ensures r.None? ==> stats.errors == old(stats).errors + 1 && stats.normalized_records == old(stats).normalized_records
      ensures old(Accounted()) ==> Accounted()
    {
      stats := stats.(total_records := stats.total_records + 1);
      ghost var counted := stats;
      var cleaned := HandleDuplicateFields(Aliases, raw);
      var permitId := PermitIdOf(services.hashRecord(raw), cleaned);
      var objects := CreateObjects(cleaned);
      BuildEffects(services, cleaned, counted);
      if objects.Raised? {
        stats := stats.(errors := stats.errors + 1);
        return None;
      }
      var o := objects.value;
      var score := QualityScore(cleaned);
      r := Some(NormalizedPermit(
        permitId, Get(cleaned, "permit_number", Null), Get(cleaned, "status", Null),
        Some(o.location), Some(o.contractor), Some(o.applicant), Some(o.valuation), Some(o.work_details), Some(o.dates),
        Some(Metadata(now, |raw|, score))));
      stats := stats.(normalized_records := stats.normalized_records + 1);
    }
  }
}
