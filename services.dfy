/**
 * What the normalizers call but this model does not compute: the Nominatim
 * geocoder, `float()`, the `pd.to_datetime` fallback, `pd.to_numeric` and
 * Python's per-process `hash`. Each is an arbitrary function handed to the
 * normalizer, so every property proved holds whatever they answer.
 */
module Services {
  import opened PyValues
  import opened Dates

  /** One geocoding request: it raised, or it answered with the first result's postcode, if any. */
  datatype Lookup = RequestFailed | Answered(postcode: Option<string>)

  /** A computation that returned a value or raised an exception. */
  datatype Outcome<T> = Ok(value: T) | Raised

  /** What a normaliser step returned, or that it raised, and the run counters `S` after it. */
  datatype Effect<T, S> = Effect(result: Outcome<T>, stats: S)

  datatype Collaborators = Collaborators(
    geocode: string -> Lookup,                // the request for a query text
    parseFloat: string -> Option<real>,       // float(s); None when it raises ValueError
    dateFallback: string -> Option<DateTime>, // pd.to_datetime(s); None when it or strftime raises
    toNumeric: Value -> Value,                // pd.to_numeric(v, errors="coerce")
    hashRecord: RawRecord -> int)             // hash(str(raw_record))

  /** `x or None`. */
  function OrNone(v: Value): (r: Value)
    ensures Truthy(v) ==> r == v
    ensures !Truthy(v) ==> r == Null
    ensures r == Null || (Truthy(r) && r == v)
    ensures Truthy(r) <==> Truthy(v)
  {
    if Truthy(v) then v else Null
  }

  /** Applying `or None` twice is applying it once. */
  lemma OrNoneIdempotent(v: Value)
    ensures OrNone(OrNone(v)) == OrNone(v)
  {
  }

  /**
   * The `permit_id` both copies derive: `permit_id`, else `permit_number`
   * (Python's `or`), else `"permit_"` and the hash of the raw record modulo
   * 1000000.
   */
  function PermitIdOf(hash: int, cleaned: map<string, Value>): string {
    var given := Get(cleaned, "permit_id", Null);
    var id := if Truthy(given) then given else Get(cleaned, "permit_number", Null);
    if Truthy(id) then PyStr(id) else "permit_" + NatToString(hash % 1000000)
  }

  /** The three ways a permit id comes about; a generated one has at most six digits and reads back as the hash modulo 10^6. */
  lemma PermitIdCases(hash: int, cleaned: map<string, Value>)
    ensures Truthy(Get(cleaned, "permit_id", Null)) ==> PermitIdOf(hash, cleaned) == PyStr(cleaned["permit_id"])
    ensures !Truthy(Get(cleaned, "permit_id", Null)) && Truthy(Get(cleaned, "permit_number", Null)) ==>
      PermitIdOf(hash, cleaned) == PyStr(cleaned["permit_number"])
    ensures !Truthy(Get(cleaned, "permit_id", Null)) && !Truthy(Get(cleaned, "permit_number", Null)) ==>
      var id := PermitIdOf(hash, cleaned);
      var digits := id[|"permit_"|..];
      id[..|"permit_"|] == "permit_" && 1 <= |digits| <= 6
      && (forall i | 0 <= i < |digits| :: IsDigit(digits[i]))
      && DecimalValue(digits) == hash % 1000000 && 0 <= DecimalValue(digits) <= 999999
  {
    var n := hash % 1000000;
    assert Pow10(6) == 1000000;
    NatToStringLength(n, 6);
    NatToStringRoundTrip(n);
    var id := "permit_" + NatToString(n);
    assert id[|"permit_"|..] == NatToString(n);
  }
}
