/**
 * Canonicalisation of raw field names (`map_field_name`): lower-case, trim,
 * turn every character outside `[a-zA-Z0-9_]` into `_`, collapse runs of `_`,
 * strip `_` from both ends, then look the result up in an alias table.
 */
module FieldNames {
  import opened PyValues

  /** The canonical keys the alias tables of both normalizer copies map to. */
  datatype Field =
    | PermitNumber | PermitId
    | StreetAddress | City | State | ZipCode | CouncilDistrict | Latitude | Longitude
    | ContractorName | ContractorPhone | ContractorAddress | ContractorLicense
    | ApplicantName | ApplicantCompany | ApplicantPhone | ApplicantEmail | ApplicantAddress
    | TotalValuation | PermitFee
    | PermitType | WorkClass | WorkDescription | UseCategory
    | IssueDate | ExpirationDate | ApplicationDate
    | Status

  function Name(f: Field): string {
    match f
    case PermitNumber => "permit_number"
    case PermitId => "permit_id"
    case StreetAddress => "street_address"
    case City => "city"
    case State => "state"
    case ZipCode => "zip_code"
    case CouncilDistrict => "council_district"
    case Latitude => "latitude"
    case Longitude => "longitude"
    case ContractorName => "contractor_name"
    case ContractorPhone => "contractor_phone"
    case ContractorAddress => "contractor_address"
    case ContractorLicense => "contractor_license"
    case ApplicantName => "applicant_name"
    case ApplicantCompany => "applicant_company"
    case ApplicantPhone => "applicant_phone"
    case ApplicantEmail => "applicant_email"
    case ApplicantAddress => "applicant_address"
    case TotalValuation => "total_valuation"
    case PermitFee => "permit_fee"
    case PermitType => "permit_type"
    case WorkClass => "work_class"
    case WorkDescription => "work_description"
    case UseCategory => "use_category"
    case IssueDate => "issue_date"
    case ExpirationDate => "expiration_date"
    case ApplicationDate => "application_date"
    case Status => "status"
  }

  /** An alias table: what `field_mappings.get(n)` finds for a normalised key `n`. */
  type AliasTable = string -> Option<Field>

  predicate IsWordChar(c: char) {
    'a' <= c <= 'z' || 'A' <= c <= 'Z' || '0' <= c <= '9' || c == '_'
  }

  predicate IsKeyChar(c: char) {
    'a' <= c <= 'z' || '0' <= c <= '9' || c == '_'
  }

  /** The shape of every normalised key: `[a-z0-9_]` only, no `__`, no `_` at either end. */
  predicate IsCanonicalKey(s: string) {
    (forall i | 0 <= i < |s| :: IsKeyChar(s[i]))
    && (forall i | 0 <= i < |s| - 1 :: !(s[i] == '_' && s[i + 1] == '_'))
    && (s != [] ==> s[0] != '_' && s[|s| - 1] != '_')
  }

  /** `re.sub(r"[^a-zA-Z0-9_]", "_", s)`. */
  function ReplaceNonWord(s: string): (r: string)
    ensures |r| == |s|
    ensures forall i | 0 <= i < |r| :: IsWordChar(r[i])
    ensures forall i | 0 <= i < |s| && IsWordChar(s[i]) :: r[i] == s[i]
    ensures forall i | 0 <= i < |s| && !IsWordChar(s[i]) :: r[i] == '_'
  {
    seq(|s|, i requires 0 <= i < |s| => if IsWordChar(s[i]) then s[i] else '_')
  }

  /** Replacing twice is replacing once; text made of word characters only is left as it is. */
  lemma ReplaceNonWordIdempotent(s: string)
    ensures ReplaceNonWord(ReplaceNonWord(s)) == ReplaceNonWord(s)
    ensures (forall i | 0 <= i < |s| :: IsWordChar(s[i])) ==> ReplaceNonWord(s) == s
  {
    var r := ReplaceNonWord(s);
    assert forall i | 0 <= i < |r| :: ReplaceNonWord(r)[i] == r[i];
  }

  /** `re.sub(r"_+", "_", s)`: every run of underscores becomes one. */
  function CollapseUnderscores(s: string): (r: string)
    ensures |r| <= |s|
    ensures forall i | 0 <= i < |r| - 1 :: !(r[i] == '_' && r[i + 1] == '_')
    ensures (forall i | 0 <= i < |s| :: IsKeyChar(s[i])) ==> forall i | 0 <= i < |r| :: IsKeyChar(r[i])
    ensures r != [] <==> s != []
    ensures s != [] ==> r[0] == s[0] && r[|r| - 1] == s[|s| - 1]
  {
    if |s| <= 1 then s
    else if s[0] == '_' && s[1] == '_' then CollapseUnderscores(s[1..])
    else [s[0]] + CollapseUnderscores(s[1..])
  }

  function TrimUnderscoresLeft(s: string): (r: string)
    ensures |r| <= |s| && r == s[|s| - |r|..]
    ensures r == [] || r[0] != '_'
  {
    if s != [] && s[0] == '_' then TrimUnderscoresLeft(s[1..]) else s
  }

  function TrimUnderscoresRight(s: string): (r: string)
    ensures |r| <= |s| && r == s[..|r|]
    ensures r == [] || r[|r| - 1] != '_'
  {
    if s != [] && s[|s| - 1] == '_' then TrimUnderscoresRight(s[..|s| - 1]) else s
  }

  /** `s.strip("_")`. */
  function StripUnderscores(s: string): (r: string)
    ensures var a := |s| - |TrimUnderscoresLeft(s)|; a + |r| <= |s| && r == s[a..a + |r|]
    ensures r == [] || (r[0] != '_' && r[|r| - 1] != '_')
  {
    var l := TrimUnderscoresLeft(s);
    var r := TrimUnderscoresRight(l);
    assert r != [] ==> r[0] == l[0];
    r
  }

  /** What `TrimUnderscoresLeft` cuts is all `_`. */
  lemma {:induction false} TrimLeftCutsUnderscores(s: string)
    ensures forall i | 0 <= i < |s| - |TrimUnderscoresLeft(s)| :: s[i] == '_'
  {
    if s != [] && s[0] == '_' {
      TrimLeftCutsUnderscores(s[1..]);
      assert forall i | 1 <= i < |s| :: s[i] == s[1..][i - 1];
    }
  }

  /** What `TrimUnderscoresRight` cuts is all `_`. */
  lemma {:induction false} TrimRightCutsUnderscores(s: string)
    ensures forall i | |TrimUnderscoresRight(s)| <= i < |s| :: s[i] == '_'
  {
    if s != [] && s[|s| - 1] == '_' {
      TrimRightCutsUnderscores(s[..|s| - 1]);
      assert forall i | 0 <= i < |s| - 1 :: s[i] == s[..|s| - 1][i];
    }
  }

  /** `strip("_")` cuts only underscores: everything before and after the kept infix is `_`. */
  lemma StripUnderscoresCuts(s: string)
    ensures var a := |s| - |TrimUnderscoresLeft(s)|;
      (forall i | 0 <= i < a :: s[i] == '_') && (forall i | a + |StripUnderscores(s)| <= i < |s| :: s[i] == '_')
  {
    var l := TrimUnderscoresLeft(s);
    var r := StripUnderscores(s);
    var a := |s| - |l|;
    TrimLeftCutsUnderscores(s);
    TrimRightCutsUnderscores(l);
    assert r == TrimUnderscoresRight(l);
    forall i | a + |r| <= i < |s| ensures s[i] == '_' {
      assert s[i] == l[i - a];
    }
  }

  /** The normalisation step of `map_field_name`, before the table lookup. */
  function NormalizeKey(key: string): (r: string)
    ensures IsCanonicalKey(r)
  {
    var trimmed := Strip(Lower(key));
    NoUpperAfterStrip(key);
    var collapsed := CollapseUnderscores(ReplaceNonWord(trimmed));
    StripUnderscoresCanonical(collapsed);
    StripUnderscores(collapsed)
  }

  predicate NoUpper(s: string) {
    forall i | 0 <= i < |s| :: !('A' <= s[i] <= 'Z')
  }

  lemma NoUpperAfterStrip(key: string)
    ensures forall i | 0 <= i < |Strip(Lower(key))| :: IsKeyChar(ReplaceNonWord(Strip(Lower(key)))[i])
  {
    var l := Lower(key);
    var u := Strip(l);
    assert NoUpper(u) by {
      var d := |l| - |TrimLeft(l)|;
      assert NoUpper(l);
      NoUpperInfix(l, d, u);
    }
    ReplacedKeyChars(u);
  }

  /** What `strip` keeps of text without upper-case letters has none either. */
  lemma NoUpperInfix(l: string, d: nat, u: string)
    requires NoUpper(l) && d + |u| <= |l| && u == l[d..][..|u|]
    ensures NoUpper(u)
  {
    forall i | 0 <= i < |u| ensures !('A' <= u[i] <= 'Z') {
      assert u[i] == l[d..][i] == l[d + i];
    }
  }

  lemma ReplacedKeyChars(t: string)
    requires forall i | 0 <= i < |t| :: !('A' <= t[i] <= 'Z')
    ensures forall i | 0 <= i < |t| :: IsKeyChar(ReplaceNonWord(t)[i])
  {
  }

  lemma StripUnderscoresCanonical(c: string)
    requires forall i | 0 <= i < |c| :: IsKeyChar(c[i])
    requires forall i | 0 <= i < |c| - 1 :: !(c[i] == '_' && c[i + 1] == '_')
    ensures IsCanonicalKey(StripUnderscores(c))
  {
    var r := StripUnderscores(c);
    var a := |c| - |TrimUnderscoresLeft(c)|;
    assert forall i | 0 <= i < |r| :: r[i] == c[a + i];
  }

  /** `map_field_name`: the normalised key's alias if the table has one, else the normalised key itself. */
  function MapFieldName(aliases: AliasTable, key: string): (r: string)
    ensures IsCanonicalKey(r)
  {
    var n := NormalizeKey(key);
    match aliases(n)
    case Some(f) => NameIsCanonical(f); Name(f)
    case None => n
  }

  /** A key already in canonical shape is left alone by the normalisation. */
  lemma CanonicalKeyUnchanged(s: string)
    requires IsCanonicalKey(s)
    ensures NormalizeKey(s) == s
  {
    assert Lower(s) == s by {
      LowerIdempotent(s);
    }
    assert Strip(s) == s by {
      assert s != [] ==> !IsSpace(s[0]) && !IsSpace(s[|s| - 1]);
      StripUnchanged(s);
    }
    assert ReplaceNonWord(s) == s by {
      ReplaceNonWordIdempotent(s);
    }
    assert CollapseUnderscores(s) == s by {
      CollapseUnchanged(s);
    }
    assert StripUnderscores(s) == s by {
      StripUnderscoresUnchanged(s);
    }
    assert NormalizeKey(s) == StripUnderscores(CollapseUnderscores(ReplaceNonWord(Strip(Lower(s)))));
  }

  /** Text with no `_` at either end loses none. */
  lemma StripUnderscoresUnchanged(s: string)
    requires s == [] || (s[0] != '_' && s[|s| - 1] != '_')
    ensures StripUnderscores(s) == s
  {
  }

  lemma {:induction false} CollapseUnchanged(s: string)
    requires forall i | 0 <= i < |s| - 1 :: !(s[i] == '_' && s[i + 1] == '_')
    ensures CollapseUnderscores(s) == s
  {
    if |s| > 1 {
      var t := s[1..];
      assert forall i | 0 <= i < |t| :: t[i] == s[i + 1];
      CollapseUnchanged(t);
      CollapseKeep(s);
      assert [s[0]] + t == s;
    }
  }

  /**
   * Collapsing only merges neighbouring underscores: two of them in a row
   * collapse as one does. With `CollapseUnchanged` this fixes the result:
   * merging pairs one at a time ends in text without `__`, which is kept.
   */
  lemma {:induction false} CollapseMergesPair(a: string, b: string)
    ensures CollapseUnderscores(a + "__" + b) == CollapseUnderscores(a + "_" + b)
    decreases |a|
  {
    if a == [] {
      assert a + "__" + b == ['_'] + ("_" + b);
      assert a + "_" + b == "_" + b;
    } else {
      var x, y := a + "__" + b, a + "_" + b;
      var x', y' := a[1..] + "__" + b, a[1..] + "_" + b;
      assert x[1..] == x' && y[1..] == y';
      assert x[0] == y[0] == a[0] && x'[0] == y'[0];
      CollapseMergesPair(a[1..], b);
    }
  }

  /** `s` with every underscore removed. */
  function DropUnderscores(s: string): (r: string)
    ensures |r| <= |s|
    ensures forall i | 0 <= i < |r| :: r[i] != '_'
  {
    if s == [] then [] else (if s[0] == '_' then [] else [s[0]]) + DropUnderscores(s[1..])
  }

  /**
   * Collapsing drops nothing but underscores: the characters other than `_`
   * survive, all of them and in their order.
   */
  lemma {:induction false} CollapseKeepsOthers(s: string)
    ensures DropUnderscores(CollapseUnderscores(s)) == DropUnderscores(s)
    decreases |s|
  {
    if |s| > 1 {
      CollapseKeepsOthers(s[1..]);
      if !(s[0] == '_' && s[1] == '_') {
        var t := CollapseUnderscores(s[1..]);
        assert ([s[0]] + t)[1..] == t;
      }
    }
  }

  lemma CollapseKeep(s: string)
    requires |s| > 1 && !(s[0] == '_' && s[1] == '_')
    ensures CollapseUnderscores(s) == [s[0]] + CollapseUnderscores(s[1..])
  {
  }

  /** Normalising twice is normalising once. */
  lemma NormalizeKeyIdempotent(key: string)
    ensures NormalizeKey(NormalizeKey(key)) == NormalizeKey(key)
  {
    CanonicalKeyUnchanged(NormalizeKey(key));
  }

  /**
   * A table is closed when every canonical name is either absent from it or
   * mapped to itself; then a mapped key maps to itself again.
   */
  ghost predicate TableClosed(aliases: AliasTable) {
    forall f: Field :: aliases(Name(f)) == None || aliases(Name(f)) == Some(f)
  }

  /** What the normaliser gives pass unchanged through `map_field_name` when no alias exists. */
  lemma MapFieldNameUnknown(aliases: AliasTable, key: string)
    requires aliases(NormalizeKey(key)) == None
    ensures MapFieldName(aliases, key) == NormalizeKey(key)
    ensures IsCanonicalKey(MapFieldName(aliases, key))
  {
  }

  /** `map_field_name` is idempotent over a closed table. */
  lemma MapFieldNameIdempotent(aliases: AliasTable, key: string)
    requires TableClosed(aliases)
    ensures MapFieldName(aliases, MapFieldName(aliases, key)) == MapFieldName(aliases, key)
  {
    var n := NormalizeKey(key);
    if aliases(n).Some? {
      MappedNameFixed(aliases, aliases(n).value);
    } else {
      UnmappedKeyFixed(aliases, key);
    }
  }

  lemma UnmappedKeyFixed(aliases: AliasTable, key: string)
    requires aliases(NormalizeKey(key)) == None
    ensures MapFieldName(aliases, NormalizeKey(key)) == NormalizeKey(key)
  {
    NormalizeKeyIdempotent(key);
  }

  /** A canonical name that a table leaves absent or maps to itself is a fixed point of `map_field_name`. */
  lemma MappedNameFixed(aliases: AliasTable, f: Field)
    requires aliases(Name(f)) == None || aliases(Name(f)) == Some(f)
    ensures MapFieldName(aliases, Name(f)) == Name(f)
  {
    var n := Name(f);
    NameIsCanonical(f);
    CanonicalKeyUnchanged(n);
    FixedKey(aliases, n);
  }

  /** A key that normalises to itself and that the table leaves absent or maps back to itself is a fixed point. */
  lemma FixedKey(aliases: AliasTable, n: string)
    requires NormalizeKey(n) == n
    requires aliases(n) == None || Name(aliases(n).value) == n
    ensures MapFieldName(aliases, n) == n
  {
  }

  /** Every canonical name is in canonical shape, so a mapped key normalises to itself. */
  lemma NameIsCanonical(f: Field)
    ensures IsCanonicalKey(Name(f))
  {
    match f
    case PermitNumber | PermitId | StreetAddress | City => IdentityNamesCanonical();
    case State | ZipCode | CouncilDistrict | Latitude | Longitude => LocationNamesCanonical();
    case ContractorName | ContractorPhone | ContractorAddress | ContractorLicense => ContractorNamesCanonical();
    case ApplicantName | ApplicantCompany | ApplicantPhone => ApplicantNamesCanonical();
    case ApplicantEmail | ApplicantAddress => ApplicantContactNamesCanonical();
    case TotalValuation | PermitFee | PermitType | WorkClass => ValuationNamesCanonical();
    case WorkDescription | UseCategory | IssueDate | Status => WorkNamesCanonical();
    case ExpirationDate | ApplicationDate => DateNamesCanonical();
  }

  // The literal checks are split into small groups to keep each proof cheap.

  lemma IdentityNamesCanonical()
    ensures IsCanonicalKey("permit_number") && IsCanonicalKey("permit_id")
    ensures IsCanonicalKey("street_address") && IsCanonicalKey("city")
  {
  }

  lemma LocationNamesCanonical()
    ensures IsCanonicalKey("state") && IsCanonicalKey("zip_code") && IsCanonicalKey("council_district")
    ensures IsCanonicalKey("latitude") && IsCanonicalKey("longitude")
  {
  }

  lemma ContractorNamesCanonical()
    ensures IsCanonicalKey("contractor_name") && IsCanonicalKey("contractor_phone")
    ensures IsCanonicalKey("contractor_address") && IsCanonicalKey("contractor_license")
  {
  }

  lemma ApplicantNamesCanonical()
    ensures IsCanonicalKey("applicant_name") && IsCanonicalKey("applicant_company")
    ensures IsCanonicalKey("applicant_phone")
  {
  }

  lemma ApplicantContactNamesCanonical()
    ensures IsCanonicalKey("applicant_email") && IsCanonicalKey("applicant_address")
  {
  }

  lemma ValuationNamesCanonical()
    ensures IsCanonicalKey("total_valuation") && IsCanonicalKey("permit_fee")
    ensures IsCanonicalKey("permit_type") && IsCanonicalKey("work_class")
  {
  }

  lemma WorkNamesCanonical()
    ensures IsCanonicalKey("work_description") && IsCanonicalKey("use_category")
    ensures IsCanonicalKey("issue_date") && IsCanonicalKey("status")
  {
  }

  lemma DateNamesCanonical()
    ensures IsCanonicalKey("expiration_date") && IsCanonicalKey("application_date")
  {
  }
}
