# ConstructIQ permit normalization, modelled in Dafny

ConstructIQ turns raw Austin construction-permit records into one canonical
`NormalizedPermit` schema, so they can be stored, searched and embedded.
This project models the code that does the turning. There are two copies of
it:

- `AustinPermitsNormalizer` of the API service
  (`constructiq-api/app/services/normalizer.py`, module `ApiNormalizer`);
- the older stand-alone `AustinPermitsNormalizer` of `pipeline.py` (module
  `Pipeline`).

It also models two parts of the vector search engine: the text a permit is
embedded as, and the filter dictionary a search hands to the database
(`constructiq-api/app/services/vector_search.py`, module `VectorSearch`).

Both normalizers do the same four things:

- They canonicalise every column name: lower-case, strip, turn non-word
  characters into `_`, collapse runs of `_`, trim `_`, then look the result
  up in an alias table.
- They drop null and blank values. When two columns map to the same name,
  they keep the one whose text is strictly longer (the first such value wins
  ties).
- They normalise each field:
  - dates, tried against `strptime` formats in order, then a fallback parser, written as `YYYY-MM-DD`;
  - currency amounts, with symbols, commas and whitespace removed, then `float()`;
  - phone numbers, as `XXX-XXX-XXXX`;
  - ZIP codes, by regular-expression search, filled in by geocoding the street when missing.
- They build the nested dataclasses. They also count records, errors,
  warnings and geocoding results in a `stats` dictionary.

How the model is organised:

- The normalizer objects are Dafny classes. `stats` is a field that their
  methods update.
- Each method is proved against a pure function of the old counters. Its
  properties are lemmas.
- The loops of the source become `for`/`while` loops with invariants:
  - the date-format loop (`Dates.TryFormats`);
  - the currency-symbol loop (`Formatters.RemoveCurrencySymbols`);
  - the duplicate-field loop (`Conflicts.HandleDuplicateFields`);
  - the quality-score loops (`Quality.QualityScore`, a `for` over the essential fields and a `while` over the others);
  - the record loop of `normalize_dataset`, pipeline copy (`Pipeline.Normalizer.NormalizeDataset`).
- The filter conversion of `search` has no loop: `VectorSearch.ConvertFilters`
  is the same six straight-line `if`s, proved equal to `FilterEntries`.

Python semantics the model writes out:

- Values are a small dynamic type, `PyValues.Value`: None, NaN, booleans,
  integers, floats with the text `str()` gives them, and strings.
- `pd.isna`, truthiness, `str()` and `dict.get` with a default are written
  out over that type (a NaN is truthy, an empty string is not).
- An exception is an `Outcome` that is `Raised`.

The collaborators the code calls but does not define are function-valued
parameters, so every property holds whatever they answer. They are:

- the Nominatim HTTP geocoder;
- `float()`;
- `pd.to_datetime`;
- `pd.to_numeric`;
- Python's `hash`.

The two copies differ, and the model keeps each one's own behaviour:

- Date formats. The API copy tries four formats; the pipeline copy tries three.
- Geocoding in the API copy. It strips the street, defaults the city and
  state to "Austin" and "TX", checks the answer against the ZIP pattern,
  and counts filled and failed lookups.
- Geocoding in the pipeline copy. It passes `record.get("city")`, so a
  record without a city is never geocoded. It does not validate the answer,
  its request exceptions propagate, and a missing postcode counts as a warning.
- Aliases. The pipeline's alias table lacks six entries of the API table:
  `council_district`, `permit_location`, `permit_class_mapped`,
  `expiresdate`, `applieddate` and `status_current`. It does map
  `council_district_code` and `council_dist` to `council_district`
  (`pipeline.py:167-168`).
- The permit dataclass. The pipeline's `NormalizedPermit`
  (`pipeline.py:91-103`) has no `work_details` field. Its `normalize_record`
  passes one, so the call raises `TypeError` after all the keyword
  arguments, side effects included, have been evaluated. Every record
  therefore ends as an error. The model proves this
  (`Permit.KeywordsFit`, `Pipeline.RecordCounters`,
  `Pipeline.DatasetCounters`).
- Totals. The pipeline counts `total_records` once, in `normalize_dataset`.

Where the two copies' code is the same, one definition serves both:

- `map_field_name`, through `FieldNames.MapFieldName` over each copy's alias table;
- `handle_duplicate_fields`, through `Conflicts.HandleDuplicateFields`;
- `normalize_phone` (`pipeline.py:267-285`), through `Formatters.NormalizePhone`;
- the contractor, applicant and work-details objects, through the functions of module `Builders`;
- `_calculate_quality_score`, through `Quality.QualityScore`.

The `SearchFilters` request model the filter dictionary reads comes from
`constructiq-api/app/models/api.py:10-41`.

## Model

| member | source | states |
|---|---|---|
| PyValues.Strip | constructiq-api/app/services/normalizer.py:106 | `str.strip()`: the result is a contiguous slice of the input with no whitespace at either end, and everything cut from either end is whitespace |
| PyValues.Lower | constructiq-api/app/services/normalizer.py:239 | `str.lower()` keeps the length, leaves no `A`-`Z`, turns each `A`-`Z` into the matching `a`-`z` and keeps every other character |
| PyValues.LowerIdempotent | constructiq-api/app/services/normalizer.py:239 | lowering twice is lowering once; text without `A`-`Z` is left alone |
| PyValues.StripIdempotent | constructiq-api/app/services/normalizer.py:106 | stripping twice is stripping once |
| PyValues.NatToStringRoundTrip | constructiq-api/app/services/normalizer.py:324 | the decimal text of a natural number reads back as that number (used for the generated `permit_<n>` id) |
| FieldNames.NormalizeKey | constructiq-api/app/services/normalizer.py:239-240 | lower/strip/replace/collapse/trim always yields a canonical key: only `[a-z0-9_]`, no `__`, no leading or trailing `_` |
| FieldNames.ReplaceNonWord | constructiq-api/app/services/normalizer.py:239 | same length; only word characters remain; each word character is kept and every other character becomes `_` |
| FieldNames.ReplaceNonWordIdempotent | constructiq-api/app/services/normalizer.py:239 | replacing twice is replacing once; word-only text is left alone |
| FieldNames.CollapseUnderscores | constructiq-api/app/services/normalizer.py:240 | no two adjacent `_` remain; key characters stay key characters; empty exactly when the input is; first and last characters kept (with `CollapseKeepsOthers`, `CollapseMergesPair` and `CollapseUnchanged`, only `_` of a run are dropped) |
| FieldNames.CollapseKeepsOthers | constructiq-api/app/services/normalizer.py:240 | collapsing keeps every character other than `_`, all of them and in order |
| FieldNames.CollapseMergesPair | constructiq-api/app/services/normalizer.py:240 | two neighbouring `_` collapse as one does |
| FieldNames.CollapseUnchanged | constructiq-api/app/services/normalizer.py:240 | text without `__` is left alone |
| FieldNames.StripUnderscores | constructiq-api/app/services/normalizer.py:240 | `.strip("_")` is a contiguous slice of its input that neither starts nor ends with `_` (with `StripUnderscoresCuts`, everything cut is `_`) |
| FieldNames.StripUnderscoresCuts | constructiq-api/app/services/normalizer.py:240 | everything before and after the infix `.strip("_")` keeps is `_` |
| FieldNames.TrimLeftCutsUnderscores | constructiq-api/app/services/normalizer.py:240 | the leading part `.strip("_")` drops is all `_` |
| FieldNames.TrimRightCutsUnderscores | constructiq-api/app/services/normalizer.py:240 | the trailing part `.strip("_")` drops is all `_` |
| FieldNames.StripUnderscoresUnchanged | constructiq-api/app/services/normalizer.py:240 | text with no `_` at either end is left alone |
| FieldNames.NormalizeKeyIdempotent | constructiq-api/app/services/normalizer.py:239-240 | normalising a normalised key changes nothing |
| FieldNames.CanonicalKeyUnchanged | constructiq-api/app/services/normalizer.py:239-240 | a canonical key is its own normal form |
| FieldNames.MapFieldNameUnknown | constructiq-api/app/services/normalizer.py:241 | a key not in the alias table maps to its normal form, which is canonical |
| FieldNames.MapFieldNameIdempotent | constructiq-api/app/services/normalizer.py:237-241 | for an alias table whose targets map to themselves, mapping a mapped name again gives the same name |
| FieldNames.UnmappedKeyFixed | constructiq-api/app/services/normalizer.py:241 | an unaliased normal form is a fixed point of `map_field_name` |
| FieldNames.MappedNameFixed | constructiq-api/app/services/normalizer.py:241 | a canonical field name that is absent from the table or aliased to itself maps to itself |
| FieldNames.NameIsCanonical | constructiq-api/app/services/normalizer.py:50-99 | every canonical field name the tables map to is a canonical key |
| Conflicts.Canonicalize | constructiq-api/app/services/normalizer.py:246-247 | pairs the mapped name of every raw key, in order, with its untouched value; every key it yields is canonical |
| Conflicts.CanonicalizeIdempotent | constructiq-api/app/services/normalizer.py:246-247 | over a closed alias table, canonicalising canonicalised pairs changes nothing |
| Conflicts.HandleDuplicateFields | constructiq-api/app/services/normalizer.py:243-259 | the loop computes the resolved record of the canonicalised pairs |
| Conflicts.ResolveStep | constructiq-api/app/services/normalizer.py:246-257 | one more raw pair changes the resolved record exactly as one loop iteration does |
| Conflicts.ResolveKeys | constructiq-api/app/services/normalizer.py:248-257 | a mapped name is present exactly when some pair with that name has a non-blank value |
| Conflicts.ResolveWinner | constructiq-api/app/services/normalizer.py:251-257 | the kept value for a name is one of its non-blank values and is at least as wide as every other; any earlier value is strictly narrower, so the first of equal width wins |
| Conflicts.ResolveNoBlank | constructiq-api/app/services/normalizer.py:248-249 | no blank or NA value survives cleaning |
| Formatters.DigitsOnly | constructiq-api/app/services/normalizer.py:146 | `re.sub(r"\D", "", s)` keeps only digits and never lengthens |
| Formatters.DashedRoundTrip | constructiq-api/app/services/normalizer.py:148-149 | ten digits in `XXX-XXX-XXXX` form have the phone shape and give back the same digits |
| Formatters.NormalizePhone | constructiq-api/app/services/normalizer.py:140-153 | None exactly for NA or blank text; 10 digits become the dashed form of those digits; 11 digits with a leading 1 lose the 1; any other text comes back stripped |
| Formatters.PhoneDigits | constructiq-api/app/services/normalizer.py:148-149 | a dashed phone's digits are its three groups, and dashing them rebuilds it |
| Formatters.PhoneFormatFixed | constructiq-api/app/services/normalizer.py:148-149 | a phone already in `XXX-XXX-XXXX` form is left as it is |
| Formatters.NormalizePhoneIdempotent | constructiq-api/app/services/normalizer.py:140-153 | normalising a normalised phone gives the same result |
| Formatters.PhoneTextFixed | constructiq-api/app/services/normalizer.py:152-153 | an unparseable phone text that is already stripped comes back unchanged |
| Formatters.FirstFive | constructiq-api/app/services/normalizer.py:226 | the leftmost position from `from` where five digits start, and none earlier |
| Formatters.ZipSearch | constructiq-api/app/services/normalizer.py:226-228 | `re.search(r"\d{5}(-\d{4})?")`: None exactly when no five-digit run exists; otherwise the ZIP or ZIP+4 at the leftmost run, a slice of the text |
| Formatters.ZipSearchOfZip | constructiq-api/app/services/normalizer.py:226-228 | searching a normalised ZIP returns it whole |
| Formatters.RemoveAll | constructiq-api/app/services/normalizer.py:130 | `str.replace(pat, "")` never lengthens (its contents are fixed by `RemoveAllMatch` and `RemoveAllKeep`) |
| Formatters.RemoveAllMatch | constructiq-api/app/services/normalizer.py:130 | an occurrence at the front is removed, and the pass goes on after it |
| Formatters.RemoveAllKeep | constructiq-api/app/services/normalizer.py:130 | a prefix in which no occurrence starts is kept whole |
| Formatters.RemoveAllChar | constructiq-api/app/services/normalizer.py:130 | removing a one-character pattern leaves none of it; text without that character is left alone |
| Formatters.RemoveAllCharAppend | constructiq-api/app/services/normalizer.py:130 | removing one character distributes over concatenation |
| Formatters.RemoveAllCharSingle | constructiq-api/app/services/normalizer.py:130 | a single character is removed exactly when it is the pattern |
| Formatters.RemoveAllAbsent | constructiq-api/app/services/normalizer.py:130 | a pattern that occurs nowhere is not removed |
| Formatters.DropSeparators | constructiq-api/app/services/normalizer.py:131 | `re.sub(r"[,\s]", "", s)` leaves no comma or whitespace and never lengthens (with `DropSeparatorsAppend` and `DropSeparatorsSingle`, every other character is kept, in order) |
| Formatters.DropSeparatorsAppend | constructiq-api/app/services/normalizer.py:131 | dropping separators distributes over concatenation |
| Formatters.DropSeparatorsSingle | constructiq-api/app/services/normalizer.py:131 | a single character is dropped exactly when it is a comma or whitespace |
| Formatters.DropSeparatorsUnchanged | constructiq-api/app/services/normalizer.py:131 | text without commas and whitespace is left unchanged |
| Formatters.RemoveCurrencySymbols | constructiq-api/app/services/normalizer.py:129-130 | the symbol loop removes `$`, then `USD`, then `usd` |
| Formatters.CleanCurrency | constructiq-api/app/services/normalizer.py:128-131 | the text handed to `float()` holds no comma, whitespace or `$` (what it is for given inputs: `CleanCurrencyPlain`, `CleanCurrencyNoSymbols`, `CleanCurrencyGrouped`, `CleanCurrencyDollarGrouped`, `CleanCurrencyUsd`) |
| Formatters.NoCharSurvives | constructiq-api/app/services/normalizer.py:130 | removing a pattern never introduces a character: one absent from the input is absent from the result |
| Formatters.CleanCurrencyPlain | constructiq-api/app/services/normalizer.py:128-131 | a plain amount (digits, `.`, `-`) reaches `float()` unchanged |
| Formatters.CleanCurrencyDollar | constructiq-api/app/services/normalizer.py:128-131 | `$` in front of a plain amount is dropped and nothing else changes |
| Formatters.CleanCurrencyNoSymbols | constructiq-api/app/services/normalizer.py:128-131 | text without `$`, `U` or `u` only loses its surrounding whitespace and its commas and whitespace |
| Formatters.CleanCurrencyGrouped | constructiq-api/app/services/normalizer.py:128-131 | a thousands comma between plain amounts is dropped (`1,234.56` becomes `1234.56`) |
| Formatters.CleanCurrencyDollarGrouped | constructiq-api/app/services/normalizer.py:128-131 | a leading `$` and a thousands comma are both dropped (`$1,234.56` becomes `1234.56`) |
| Formatters.CleanCurrencyDollarText | constructiq-api/app/services/normalizer.py:128-131 | `$` in front of symbol-free text is dropped, then its separators |
| Formatters.CleanCurrencyUsdText | constructiq-api/app/services/normalizer.py:128-131 | `USD` in front of symbol-free text is dropped, then its separators |
| Formatters.CleanCurrencyUsd | constructiq-api/app/services/normalizer.py:128-131 | `USD ` in front of a plain amount is dropped (`USD 1500` becomes `1500`) |
| Formatters.CleanCurrencyUsdLower | constructiq-api/app/services/normalizer.py:128-131 | `usd ` in front of a plain amount is dropped (`usd 10` becomes `10`) |
| Formatters.CleanCurrencyUsdLowerText | constructiq-api/app/services/normalizer.py:128-131 | `usd` in front of symbol-free text is dropped, then its separators |
| Formatters.CleanCurrencyUsdTen | constructiq-api/app/services/normalizer.py:128-131 | the amount `usd 10` reaches `float()` as `10` |
| Dates.Strptime | constructiq-api/app/services/normalizer.py:110 | `datetime.strptime`: any parsed value is a valid calendar date and time |
| Dates.PadDigitsValue | constructiq-api/app/services/normalizer.py:111 | zero-padded rendering reads back as the number |
| Dates.StrptimeRendered | constructiq-api/app/services/normalizer.py:110-111 | parsing a format's own rendering gives back the fields the format carries |
| Dates.StrptimeLeftover | constructiq-api/app/services/normalizer.py:110 | text left over after the format makes `strptime` fail |
| Dates.UsDateRejectsYearFirst | constructiq-api/app/services/normalizer.py:29 | `%m/%d/%Y` rejects text that starts with four digits |
| Dates.IsoDateNeedsYear | constructiq-api/app/services/normalizer.py:28 | `%Y-%m-%d` rejects text that does not start with four digits |
| Dates.IsoTextRoundTrip | constructiq-api/app/services/normalizer.py:111 | `strftime("%Y-%m-%d")` of a valid date has the ISO shape and parses back to that date |
| Dates.FirstParse | constructiq-api/app/services/normalizer.py:108-113 | the result of the first format that parses is valid |
| Dates.TryFormats | constructiq-api/app/services/normalizer.py:108-113 | the format loop returns the first format's parse, in order |
| Dates.FirstParseIsoDate | constructiq-api/app/services/normalizer.py:28 | an ISO date is read by the first format |
| Dates.FirstParseUsDate | constructiq-api/app/services/normalizer.py:28-29 | `MM/DD/YYYY` fails the ISO format and is read by the second |
| Dates.FirstParseDateTime | constructiq-api/app/services/normalizer.py:28-30 | a `YYYY-MM-DDTHH:MM:SS` timestamp fails the first two formats and is read by the third |
| Dates.FirstParseDateTimeMicro | constructiq-api/app/services/normalizer.py:28-31 | a timestamp with microseconds is read only by the fourth format |
| Dates.NoFormatReadsMicro | pipeline.py:124 | with the pipeline's three formats, a timestamp with microseconds parses with none |
| Dates.DateStep | constructiq-api/app/services/normalizer.py:101-121 | None without a warning exactly for blank or NA input; the first format that parses the stripped text, else the fallback's answer, rendered as `YYYY-MM-DD`; a warning exactly when neither parses; any result has the ISO shape |
| Dates.IsoTextShape | constructiq-api/app/services/normalizer.py:111 | every `strftime("%Y-%m-%d")` has the `YYYY-MM-DD` shape |
| Dates.DateStepIsoFixed | constructiq-api/app/services/normalizer.py:101-111 | a normalised date normalises to itself without a warning |
| Dates.DateStepUsDate | constructiq-api/app/services/normalizer.py:101-111 | a US date normalises to the same date in ISO form |
| Dates.DateStepDateTime | constructiq-api/app/services/normalizer.py:101-111 | a timestamp normalises to its date; the time is dropped |
| Dates.DateStepDateTimeMicro | constructiq-api/app/services/normalizer.py:101-111 | with four formats, a timestamp with microseconds normalises to its date |
| Dates.DateStepMicroFallsBack | pipeline.py:221-243 | with the pipeline's three formats, such a timestamp goes to the fallback parser, and warns exactly when that fails |
| Quality.QualityScore | constructiq-api/app/services/normalizer.py:353-370 | the two weighted loops compute the score function |
| Quality.ScoreBounds | constructiq-api/app/services/normalizer.py:353-370 | the score lies between 0 and 1 |
| Quality.EmptyScoresZero | constructiq-api/app/services/normalizer.py:353-370 | an empty record scores 0 (the weight is never 0, because the four essentials always count) |
| Quality.ScoreOne | constructiq-api/app/services/normalizer.py:353-370 | the score is 1 exactly when all four essentials and every other field are truthy |
| Quality.OnlyEssentialsScoreOne | constructiq-api/app/services/normalizer.py:355-362 | a record of exactly the four truthy essentials scores 1 |
| Quality.EssentialHitsAll | constructiq-api/app/services/normalizer.py:359-362 | all essential points are earned exactly when every essential is truthy; none when none is |
| Permit.KeywordsFit | pipeline.py:91-103 | the API dataclass accepts every keyword `normalize_record` passes; the pipeline's does not (`work_details`) |
| Permit.LocationDefaults | constructiq-api/app/models/permit.py:9-19 | a default `Location` is in Austin, TX, with everything else None |
| Permit.ValuationDefaults | constructiq-api/app/models/permit.py:42-47 | a default `Valuation` has no amounts and currency USD |
| Permit.PermitDefaults | constructiq-api/app/models/permit.py:22-78 | only `permit_id` is required; every other dataclass field defaults to None |
| Services.OrNone | constructiq-api/app/services/normalizer.py:273-275 | `x or None` keeps a truthy value and turns a falsy one into None: the result is the input or None, and truthy exactly when the input is |
| Services.OrNoneIdempotent | constructiq-api/app/services/normalizer.py:273-275 | applying `or None` twice is applying it once |
| Services.PermitIdCases | constructiq-api/app/services/normalizer.py:322-324 | the id is `permit_id` if truthy, else `permit_number` if truthy, else `permit_` and one to six digits that read back as the hash modulo 1000000 |
| Builders.FieldWarnings | constructiq-api/app/services/normalizer.py:295-312 | building the valuation and dates logs at most five warnings |
| ApiNormalizer.AliasesClosed | constructiq-api/app/services/normalizer.py:48-99 | every mapping target is itself unmapped or mapped to itself |
| ApiNormalizer.AliasFixed | constructiq-api/app/services/normalizer.py:48-99 | each canonical field name is absent or maps to itself |
| ApiNormalizer.AliasNames0 | constructiq-api/app/services/normalizer.py:52-58 | the identity entries for permit number, permit id and street, and none for city |
| ApiNormalizer.AliasNames1 | constructiq-api/app/services/normalizer.py:59-63 | no entry for state; entries for ZIP, council district, latitude |
| ApiNormalizer.AliasNames2 | constructiq-api/app/services/normalizer.py:63-69 | the identity entries for longitude and the contractor fields |
| ApiNormalizer.AliasNames3 | constructiq-api/app/services/normalizer.py:70-74 | no entry for `contractor_license`; the applicant identity entries |
| ApiNormalizer.AliasNames4 | constructiq-api/app/services/normalizer.py:74-79 | the identity entries for applicant email and address, valuation and fee |
| ApiNormalizer.AliasNames5 | constructiq-api/app/services/normalizer.py:82-87 | the identity entries for the work-detail fields |
| ApiNormalizer.AliasNames6 | constructiq-api/app/services/normalizer.py:90-98 | the identity entries for the dates and status |
| ApiNormalizer.MapFieldNameIdempotentHere | constructiq-api/app/services/normalizer.py:237-241 | with this table, mapping a mapped name again changes nothing |
| ApiNormalizer.AcceptedPostcode | constructiq-api/app/services/normalizer.py:187-199 | a postcode is accepted exactly when the lookup answered with one that starts with five digits |
| ApiNormalizer.FillZip | constructiq-api/app/services/normalizer.py:155-214 | no lookup exactly for a blank street; a fill is an accepted answer to the query built from street, city and state; otherwise a failure |
| ApiNormalizer.CountFillExactlyOne | constructiq-api/app/services/normalizer.py:198-213 | a lookup bumps exactly one of `zip_codes_filled` and `geocoding_failures`, the first exactly on success, nothing else |
| ApiNormalizer.RouteZip | constructiq-api/app/services/normalizer.py:216-235 | a present ZIP is extracted; otherwise a non-blank text street is geocoded, a blank or falsy street gives None, and a truthy non-text street raises |
| ApiNormalizer.PresentZipWins | constructiq-api/app/services/normalizer.py:222-228 | a matching ZIP comes back without consulting the geocoder or changing a counter |
| ApiNormalizer.GeocodeOnlyForStreet | constructiq-api/app/services/normalizer.py:216-235 | the geocoding counters grow by one exactly when the geocoder is asked; a geocoded ZIP starts with five digits |
| ApiNormalizer.FieldsLoggedCount | constructiq-api/app/services/normalizer.py:295-312 | the amount and date steps add one warning per unparseable field and touch nothing else |
| ApiNormalizer.BuildEffects | constructiq-api/app/services/normalizer.py:261-314 | `create_objects` raises exactly for a truthy non-text street and then changes no counter; otherwise at most five warnings and at most one geocoding count |
| ApiNormalizer.Normalizer.NormalizeDate | constructiq-api/app/services/normalizer.py:101-121 | returns the date step's result and adds its warning |
| ApiNormalizer.Normalizer.NormalizeCurrency | constructiq-api/app/services/normalizer.py:123-138 | returns `float()` of the cleaned text, or None with a warning |
| ApiNormalizer.Normalizer.GetZipCode | constructiq-api/app/services/normalizer.py:155-214 | returns the fill and bumps its counter |
| ApiNormalizer.Normalizer.NormalizeZipCode | constructiq-api/app/services/normalizer.py:216-235 | result and counters are those of the ZIP route |
| ApiNormalizer.Normalizer.CreateObjects | constructiq-api/app/services/normalizer.py:261-314 | the six objects, or the exception, and the counters after the steps in source order |
| ApiNormalizer.Normalizer.NormalizeRecord | constructiq-api/app/services/normalizer.py:316-351 | `total_records` always +1; on success the permit from the cleaned record, its id, metadata and quality score, with `normalized_records` +1; on an exception None with `errors` +1; the counters stay accounted for |
| Pipeline.PipelineAliasesClosed | pipeline.py:144-219 | every mapping target is itself unmapped or mapped to itself |
| Pipeline.PipelineAliasFixed | pipeline.py:144-219 | each canonical field name is absent or maps to itself |
| Pipeline.PipelineAliasNames0 | pipeline.py:150-173 | the identity entries for permit number, permit id and street, none for city |
| Pipeline.PipelineAliasNames1 | pipeline.py:157-173 | no entry for state or council district; entries for ZIP and latitude |
| Pipeline.PipelineAliasNames2 | pipeline.py:157-182 | the identity entries for longitude and the contractor fields |
| Pipeline.PipelineAliasNames3 | pipeline.py:174-189 | no entry for `contractor_license`; the applicant identity entries |
| Pipeline.PipelineAliasNames4 | pipeline.py:183-195 | the identity entries for applicant email and address, valuation and fee |
| Pipeline.PipelineAliasNames5 | pipeline.py:196-206 | the identity entries for the work-detail fields |
| Pipeline.PipelineAliasNames6 | pipeline.py:207-218 | the identity entries for the dates and status |
| Pipeline.PipelineMapFieldNameIdempotent | pipeline.py:333-339 | with this table, mapping a mapped name again changes nothing |
| Pipeline.GeocodeUnvalidated | pipeline.py:287-312 | the lookup's postcode is returned unchecked; only a missing or empty one is counted, as one warning |
| Pipeline.PresentZipNotGeocoded | pipeline.py:318-331 | a ZIP that is not NA is searched and never geocoded; None exactly when it has no five-digit run |
| Pipeline.AbsentZipNeedsStreetAndCity | pipeline.py:318-322 | an NA ZIP is geocoded exactly when street and city are both truthy |
| Pipeline.MissingCityNotGeocoded | pipeline.py:368-386 | a record with no `city` is never geocoded, yet its `Location` says Austin |
| Pipeline.FieldsLoggedCount | pipeline.py:408-431 | the valuation and date steps add one warning per unparseable field and nothing else |
| Pipeline.LocationCounters | pipeline.py:368-386 | the location step changes at most the warnings, by at most one |
| Pipeline.RecordCounters | pipeline.py:433-472 | every record ends with `errors` +1, `normalized_records` and `total_records` unchanged, and at most six warnings |
| Pipeline.DatasetStep | pipeline.py:538-544 | one more record extends the run exactly by that record's effect |
| Pipeline.DatasetCounters | pipeline.py:518-544 | over a run, errors grow by the number of records, no record is normalized, at most six warnings each |
| Pipeline.Limited | pipeline.py:532-533 | the limited list is a prefix of the loaded one |
| Pipeline.LimitedLength | pipeline.py:532-533 | `raw_data[:limit]` for a truthy limit: keeps at most `limit`, or drops `-limit` from the end; no limit or 0 keeps all |
| Pipeline.Normalizer.NormalizeDate | pipeline.py:221-243 | returns the date step's result over the three formats and adds its warning |
| Pipeline.Normalizer.NormalizeCurrency | pipeline.py:245-265 | returns `float()` of the cleaned text, or None with a warning |
| Pipeline.Normalizer.GetZipCode | pipeline.py:287-312 | result and counters are those of the unvalidated lookup, exception included |
| Pipeline.Normalizer.NormalizeZipCode | pipeline.py:314-331 | result and counters are those of the ZIP function |
| Pipeline.Normalizer.CreateLocationObject | pipeline.py:368-386 | the location, or the geocoder's exception, and the counters after it |
| Pipeline.Normalizer.CreateValuationObject | pipeline.py:408-414 | the valuation and one warning per unparseable amount |
| Pipeline.Normalizer.CreateDatesObject | pipeline.py:425-431 | the three dates and one warning per unparseable date |
| Pipeline.Normalizer.NormalizeRecord | pipeline.py:433-472 | always None; the counters are the record function's: the steps' warnings, then one error |
| Pipeline.Normalizer.NormalizeDataset | pipeline.py:518-544 | `total_records` set to the loaded count, then each limited record in turn; no record returned |
| VectorSearch.Rank | constructiq-api/app/services/vector_search.py:30-58 | each label's position in the order the text parts are emitted |
| VectorSearch.LabelOrderComplete | constructiq-api/app/services/vector_search.py:30-58 | every label is emitted at exactly one position |
| VectorSearch.Prefix | constructiq-api/app/services/vector_search.py:34-58 | every label prefix is non-empty |
| VectorSearch.CreateEmbeddingText | constructiq-api/app/services/vector_search.py:26-60 | returns the joined embedding lines |
| VectorSearch.AddWorkDetails | constructiq-api/app/services/vector_search.py:31-40 | appends the four work lines present, in order |
| VectorSearch.AddLocation | constructiq-api/app/services/vector_search.py:43-48 | appends the address and city lines present |
| VectorSearch.AddContractor | constructiq-api/app/services/vector_search.py:51-52 | appends the contractor line when present |
| VectorSearch.AddValuation | constructiq-api/app/services/vector_search.py:55-58 | appends the valuation line when the total is positive |
| VectorSearch.PartsRendered | constructiq-api/app/services/vector_search.py:26-60 | the lines are the rendered (label, body) parts collected in label order |
| VectorSearch.EmbeddingTextEmpty | constructiq-api/app/services/vector_search.py:26-60 | the text is empty exactly when no label's field is present |
| VectorSearch.PartsFaithful | constructiq-api/app/services/vector_search.py:26-60 | a label has a part exactly when its field is present, and the part carries that field's body |
| VectorSearch.PartsOrdered | constructiq-api/app/services/vector_search.py:26-60 | parts follow the label order strictly, so no label appears twice |
| VectorSearch.KeyName | constructiq-api/app/services/vector_search.py:107-118 | every filter key name is non-empty |
| VectorSearch.KeyNamesDistinct | constructiq-api/app/services/vector_search.py:107-118 | two filter keys have the same name exactly when they are the same key |
| VectorSearch.ConvertFilters | constructiq-api/app/services/vector_search.py:104-118 | the filter dict holds the collected truthy filters, empty when there are no filters |
| VectorSearch.SearchFilterArgument | constructiq-api/app/services/vector_search.py:104-123 | the argument passed to the database is the filter argument function |
| VectorSearch.FilterArgumentNeverEmpty | constructiq-api/app/services/vector_search.py:123 | the database never receives an empty dict; it receives None exactly when no filters were given or none is truthy |
| VectorSearch.KeyRank | constructiq-api/app/services/vector_search.py:107-118 | each filter key's position in insertion order |
| VectorSearch.FilterKeysComplete | constructiq-api/app/services/vector_search.py:107-118 | every filter key appears at exactly one position |
| VectorSearch.FilterEntriesFaithful | constructiq-api/app/services/vector_search.py:104-118 | a key has an entry exactly when its filter is truthy, the entry carries the filter's value, and entries follow insertion order |
| VectorSearch.FalsyFiltersLeftOut | constructiq-api/app/services/vector_search.py:106-118 | an empty-string or zero filter is left out; a filter object with nothing set becomes None |

## Left out

- Geocoding: the HTTP request to Nominatim, its headers, timeout, status code, JSON decoding and the `time.sleep(0.1)` are one function parameter (`geocode`) from query text to an answer or an exception.
- `float()`, `pd.to_datetime`, `pd.to_numeric` and `hash(str(raw_record))` are function parameters; the model does not compute them.
- List and dict field values (from JSON input) are outside `PyValues.Value`. For such a value `pd.isna` returns an array, whose truth test in `handle_duplicate_fields` (`constructiq-api/app/services/normalizer.py:248-249`) raises `ValueError`, which `normalize_record` counts as an error; that exception path is not modelled.
- Floating point: amounts are `real`, so NaN and infinities from `float()` and the floating-point rounding of the quality score are not modelled.
- The `f"{val:,.2f}"` rendering of a valuation is a parameter (`money`); `datetime.now().isoformat()` is a parameter (`now`).
- `load_data` and the whole of `normalize_dataset` in the API copy (`constructiq-api/app/services/normalizer.py:372-420`) are not modelled: the file and JSON handling, the `limit` slice, the record loop and the list it returns, and the counters the loop leaves. In particular the model does not capture that this copy sets `total_records = len(raw_data)` (`constructiq-api/app/services/normalizer.py:402`) before the loop and each `normalize_record` call then adds 1 more (`constructiq-api/app/services/normalizer.py:319`), so the count the run ends with is the loaded count plus the number of records processed. `ApiNormalizer.Normalizer.NormalizeRecord` models one call and its +1 only.
- `Pipeline.Normalizer.NormalizeDataset`: takes the loaded records as a sequence and leaves out `load_data`, the output JSON, the progress logging, `asdict` and `_get_schema_documentation`.
- `_load_config` reading a JSON file that overrides the defaults (`pipeline.py:121-142`) is not modelled; the defaults are.
- `main` of `pipeline.py`, `database.py`, the FastAPI application and the endpoints are not part of this model.
- Logging is left out; only the counters it sits beside are modelled.
- Case and digits are ASCII: `str.lower` folds only A-Z, and the regular expressions' `\d`/`\D` classes are taken to mean the digits 0-9 only; Unicode case folding and non-ASCII decimal digits are not modelled. Whitespace (`str.strip`, `\s`) is Python's full `str.isspace()` set, listed character by character.
- `strftime("%Y")` is always four digits wide; the platform difference for years below 1000 is not modelled.
- `get_zip_code` of the API copy: a postcode that is not a string (which would raise inside `re.match` and count as a failure) is not modelled; postcodes are text.
- `Conflicts.HandleDuplicateFields` is shared by both copies; the pipeline's `field_priorities` dictionary is written but never read, so it is left out.
- `VectorSearch.CreateEmbeddingText` takes the permit as the `NormalizedPermit` datatype rather than its `dict` form.
- The embedding API call and the database search of `search` are left out; only the filter dictionary and the argument built from it are modelled.
- `create_embedding_text` and the filter part of `search` are split into one helper method per block of the source.
