/**
 * The two pure steps of app/services/vector_search.py: the text a permit is
 * embedded from (`create_embedding_text`) and the filter dict `search`
 * hands to the database.
 */
module VectorSearch {
  import opened PyValues
  import opened Permit

  // ---------------------------------------------------------------- ordered optional entries

  /** The entry for `k`: none, or `k` paired with its value. */
  function Pick<K, V>(k: K, slot: K -> Option<V>): (r: seq<(K, V)>)
    ensures |r| == (if slot(k).Some? then 1 else 0)
    ensures forall i | 0 <= i < |r| :: r[i] == (k, slot(k).value)
  {
    match slot(k) case Some(v) => [(k, v)] case None => []
  }

  /**
   * The keys of `order` whose slot holds a value, with that value, in the
   * order of `order`: the shape of a list or dict filled by one `if` per key.
   */
  function Collect<K, V>(order: seq<K>, slot: K -> Option<V>): seq<(K, V)>
    decreases |order|
  {
    if order == [] then [] else Pick(order[0], slot) + Collect(order[1..], slot)
  }

  /** Every entry is a key of `order` with the value of its slot. */
  lemma {:induction false} CollectSound<K, V>(order: seq<K>, slot: K -> Option<V>)
    ensures forall i | 0 <= i < |Collect(order, slot)| ::
      Collect(order, slot)[i].0 in order && slot(Collect(order, slot)[i].0) == Some(Collect(order, slot)[i].1)
    decreases |order|
  {
    if order != [] {
      CollectSound(order[1..], slot);
      var head, rest := Pick(order[0], slot), Collect(order[1..], slot);
      assert Collect(order, slot) == head + rest;
      forall i | |head| <= i < |head| + |rest|
        ensures (head + rest)[i] == rest[i - |head|] && rest[i - |head|].0 in order
      {
      }
    }
  }

  /** Every key of `order` whose slot holds a value has its entry. */
  lemma {:induction false} CollectComplete<K, V>(order: seq<K>, slot: K -> Option<V>, k: K)
    requires k in order && slot(k).Some?
    ensures exists i :: 0 <= i < |Collect(order, slot)| && Collect(order, slot)[i] == (k, slot(k).value)
    decreases |order|
  {
    var head, rest := Pick(order[0], slot), Collect(order[1..], slot);
    assert Collect(order, slot) == head + rest;
    if order[0] == k {
      assert Collect(order, slot)[0] == (k, slot(k).value);
    } else {
      assert k in order[1..];
      CollectComplete(order[1..], slot, k);
      var i :| 0 <= i < |rest| && rest[i] == (k, slot(k).value);
      assert Collect(order, slot)[|head| + i] == rest[i];
    }
  }

  /** The entries keep the order of `order`: their positions in it strictly increase. */
  lemma {:induction false} CollectPositions<K, V>(order: seq<K>, slot: K -> Option<V>) returns (pos: seq<nat>)
    ensures |pos| == |Collect(order, slot)|
    ensures forall i | 0 <= i < |pos| :: pos[i] < |order| && order[pos[i]] == Collect(order, slot)[i].0
    ensures forall i, j | 0 <= i < j < |pos| :: pos[i] < pos[j]
    decreases |order|
  {
    if order == [] {
      pos := [];
    } else {
      var rest := CollectPositions(order[1..], slot);
      var shifted := seq(|rest|, i requires 0 <= i < |rest| => rest[i] + 1);
      pos := (if slot(order[0]).Some? then [0] else []) + shifted;
      assert Collect(order, slot) == Pick(order[0], slot) + Collect(order[1..], slot);
    }
  }

  /** No entry at all exactly when no slot of `order` holds a value. */
  lemma CollectEmpty<K, V>(order: seq<K>, slot: K -> Option<V>)
    ensures Collect(order, slot) == [] <==> forall k | k in order :: slot(k).None?
  {
    CollectSound(order, slot);
    if Collect(order, slot) == [] {
      forall k | k in order
        ensures slot(k).None?
      {
        if slot(k).Some? {
          CollectComplete(order, slot, k);
        }
      }
    }
  }

  /** A key of `order` has an entry exactly when its slot holds a value, and every entry for it carries that value. */
  lemma CollectFaithful<K, V>(order: seq<K>, slot: K -> Option<V>, k: K)
    requires k in order
    ensures slot(k).Some? <==> exists i :: 0 <= i < |Collect(order, slot)| && Collect(order, slot)[i].0 == k
    ensures forall i | 0 <= i < |Collect(order, slot)| && Collect(order, slot)[i].0 == k ::
      slot(k) == Some(Collect(order, slot)[i].1)
  {
    CollectSound(order, slot);
    if slot(k).Some? {
      CollectComplete(order, slot, k);
    }
  }

  // ---------------------------------------------------------------- create_embedding_text

  /** The labelled parts, in the order `create_embedding_text` emits them. */
  datatype Label = PermitTypeLabel | WorkClassLabel | DescriptionLabel | UseCategoryLabel
                 | AddressLabel | CityLabel | ContractorLabel | ValuationLabel

  const LabelOrder: seq<Label> :=
    [PermitTypeLabel, WorkClassLabel, DescriptionLabel, UseCategoryLabel,
     AddressLabel, CityLabel, ContractorLabel, ValuationLabel]

  /** The position of a label in the emitted order. */
  function Rank(l: Label): (n: nat)
    ensures n < |LabelOrder| && LabelOrder[n] == l
  {
    match l
    case PermitTypeLabel => 0
    case WorkClassLabel => 1
    case DescriptionLabel => 2
    case UseCategoryLabel => 3
    case AddressLabel => 4
    case CityLabel => 5
    case ContractorLabel => 6
    case ValuationLabel => 7
  }

  /** The order lists every label once. */
  lemma LabelOrderComplete()
    ensures forall l: Label :: l in LabelOrder
    ensures forall n | 0 <= n < |LabelOrder| :: Rank(LabelOrder[n]) == n
  {
    forall l: Label ensures l in LabelOrder { assert LabelOrder[Rank(l)] == l; }
  }

  /** The text in front of a part's body. */
  function Prefix(l: Label): (t: string)
    ensures t != []
  {
    match l
    case PermitTypeLabel => "Permit Type: "
    case WorkClassLabel => "Work Class: "
    case DescriptionLabel => "Description: "
    case UseCategoryLabel => "Use Category: "
    case AddressLabel => "Address: "
    case CityLabel => "City: "
    case ContractorLabel => "Contractor: "
    case ValuationLabel => "Valuation: $"
  }

  /**
   * The body emitted for one label, or None when `create_embedding_text`
   * skips it: the sub-object must exist and the field be truthy; the
   * valuation must also be positive. `money` renders `f"{val:,.2f}"`, and
   * the `$` in front of it belongs to the label's prefix.
   */
  function Slot(permit: NormalizedPermit, money: real -> string, l: Label): Option<string> {
    match l
    case PermitTypeLabel =>
      if permit.work_details.Some? && Truthy(permit.work_details.value.permit_type)
      then Some(PyStr(permit.work_details.value.permit_type)) else None
    case WorkClassLabel =>
      if permit.work_details.Some? && Truthy(permit.work_details.value.work_class)
      then Some(PyStr(permit.work_details.value.work_class)) else None
    case DescriptionLabel =>
      if permit.work_details.Some? && Truthy(permit.work_details.value.description)
      then Some(PyStr(permit.work_details.value.description)) else None
    case UseCategoryLabel =>
      if permit.work_details.Some? && Truthy(permit.work_details.value.use_category)
      then Some(PyStr(permit.work_details.value.use_category)) else None
    case AddressLabel =>
      if permit.location.Some? && Truthy(permit.location.value.street_address)
      then Some(PyStr(permit.location.value.street_address)) else None
    case CityLabel =>
      if permit.location.Some? && Truthy(permit.location.value.city)
      then Some(PyStr(permit.location.value.city)) else None
    case ContractorLabel =>
      if permit.contractor.Some? && Truthy(permit.contractor.value.name)
      then Some(PyStr(permit.contractor.value.name)) else None
    case ValuationLabel =>
      if permit.valuation.Some? && permit.valuation.value.total_valuation.Some?
         && permit.valuation.value.total_valuation.value > 0.0
      then Some(money(permit.valuation.value.total_valuation.value)) else None
  }

  function SlotOf(permit: NormalizedPermit, money: real -> string): Label -> Option<string> {
    l => Slot(permit, money, l)
  }

  /** The (label, body) parts `create_embedding_text` collects, in label order. */
  function Parts(permit: NormalizedPermit, money: real -> string): seq<(Label, string)> {
    Collect(LabelOrder, SlotOf(permit, money))
  }

  /** Each part as the text `create_embedding_text` appends for it. */
  function RenderAll(parts: seq<(Label, string)>): (r: seq<string>)
    ensures |r| == |parts| && forall i | 0 <= i < |parts| :: r[i] == Prefix(parts[i].0) + parts[i].1
    decreases |parts|
  {
    if parts == [] then [] else [Prefix(parts[0].0) + parts[0].1] + RenderAll(parts[1..])
  }

  /** `sep.join(parts)`. */
  function Join(parts: seq<string>, sep: string): string
    decreases |parts|
  {
    if parts == [] then ""
    else if |parts| == 1 then parts[0]
    else Join(parts[..|parts| - 1], sep) + sep + parts[|parts| - 1]
  }

  /** What `create_embedding_text` appends for one label. */
  function Line(permit: NormalizedPermit, money: real -> string, l: Label): seq<string> {
    match Slot(permit, money, l) case Some(b) => [Prefix(l) + b] case None => []
  }

  /** The lines of all labels, in the emitted order. */
  function EmbeddingLines(permit: NormalizedPermit, money: real -> string): seq<string> {
    Line(permit, money, PermitTypeLabel) + Line(permit, money, WorkClassLabel)
      + Line(permit, money, DescriptionLabel) + Line(permit, money, UseCategoryLabel)
      + Line(permit, money, AddressLabel) + Line(permit, money, CityLabel)
      + Line(permit, money, ContractorLabel) + Line(permit, money, ValuationLabel)
  }

  /** The string `create_embedding_text` returns. */
  function EmbeddingText(permit: NormalizedPermit, money: real -> string): string {
    Join(EmbeddingLines(permit, money), " | ")
  }

  /** The rendered parts of the first `k` labels. */
  ghost function Upto(permit: NormalizedPermit, money: real -> string, k: nat): seq<string>
    requires k <= |LabelOrder|
  {
    RenderAll(Collect(LabelOrder[..k], SlotOf(permit, money)))
  }

  /**
   * `create_embedding_text`: the parts are appended block by block, one
   * method per commented block of the source, and joined with `" | "`.
   */
  method CreateEmbeddingText(permit: NormalizedPermit, money: real -> string) returns (text: string)
    ensures text == EmbeddingText(permit, money)
  {
    var textParts: seq<string> := [];
    textParts := AddWorkDetails(permit, money, textParts);
    assert textParts == Line(permit, money, PermitTypeLabel) + Line(permit, money, WorkClassLabel)
      + Line(permit, money, DescriptionLabel) + Line(permit, money, UseCategoryLabel);
    textParts := AddLocation(permit, money, textParts);
    textParts := AddContractor(permit, money, textParts);
    textParts := AddValuation(permit, money, textParts);
    text := Join(textParts, " | ");
  }

  /** Permit type and work details: each truthy field of `work_details`, if present. */
  method AddWorkDetails(permit: NormalizedPermit, money: real -> string, parts: seq<string>) returns (textParts: seq<string>)
    ensures textParts == parts + Line(permit, money, PermitTypeLabel) + Line(permit, money, WorkClassLabel)
      + Line(permit, money, DescriptionLabel) + Line(permit, money, UseCategoryLabel)
  {
    // each appended line is its label's prefix followed by the field; the
    // ghost snapshots record the parts after each label
    textParts := parts;
    if permit.work_details.Some? {
      var work := permit.work_details.value;
      if Truthy(work.permit_type) {
        textParts := textParts + [Prefix(PermitTypeLabel) + PyStr(work.permit_type)];
      }
      ghost var t1 := textParts;
      assert t1 == parts + Line(permit, money, PermitTypeLabel);
      if Truthy(work.work_class) {
        textParts := textParts + [Prefix(WorkClassLabel) + PyStr(work.work_class)];
      }
      ghost var t2 := textParts;
      assert t2 == t1 + Line(permit, money, WorkClassLabel);
      if Truthy(work.description) {
        textParts := textParts + [Prefix(DescriptionLabel) + PyStr(work.description)];
      }
      ghost var t3 := textParts;
      assert t3 == t2 + Line(permit, money, DescriptionLabel);
      if Truthy(work.use_category) {
        textParts := textParts + [Prefix(UseCategoryLabel) + PyStr(work.use_category)];
      }
      assert textParts == t3 + Line(permit, money, UseCategoryLabel);
    }
  }

  /** Location info: a truthy street address and city, if the location is present. */
  method AddLocation(permit: NormalizedPermit, money: real -> string, parts: seq<string>) returns (textParts: seq<string>)
    ensures textParts == parts + Line(permit, money, AddressLabel) + Line(permit, money, CityLabel)
  {
    textParts := parts;
    if permit.location.Some? {
      var location := permit.location.value;
      if Truthy(location.street_address) {
        textParts := textParts + [Prefix(AddressLabel) + PyStr(location.street_address)];
      }
      ghost var t1 := textParts;
      assert t1 == parts + Line(permit, money, AddressLabel);
      if Truthy(location.city) {
        textParts := textParts + [Prefix(CityLabel) + PyStr(location.city)];
      }
      assert textParts == t1 + Line(permit, money, CityLabel);
    }
  }

  /** Contractor info: the contractor's name, when there is a contractor with a truthy name. */
  method AddContractor(permit: NormalizedPermit, money: real -> string, parts: seq<string>) returns (textParts: seq<string>)
    ensures textParts == parts + Line(permit, money, ContractorLabel)
  {
    textParts := parts;
    if permit.contractor.Some? && Truthy(permit.contractor.value.name) {
      textParts := textParts + [Prefix(ContractorLabel) + PyStr(permit.contractor.value.name)];
    }
  }

  /** Valuation if significant: a truthy, positive total valuation. */
  method AddValuation(permit: NormalizedPermit, money: real -> string, parts: seq<string>) returns (textParts: seq<string>)
    ensures textParts == parts + Line(permit, money, ValuationLabel)
  {
    textParts := parts;
    if permit.valuation.Some? && permit.valuation.value.total_valuation.Some? {
      var val := permit.valuation.value.total_valuation.value;
      // `if val and val > 0`: a positive amount is also truthy
      if val != 0.0 && val > 0.0 {
        textParts := textParts + [Prefix(ValuationLabel) + money(val)];
      }
    }
  }

  lemma {:induction false} RenderAllConcat(a: seq<(Label, string)>, b: seq<(Label, string)>)
    ensures RenderAll(a + b) == RenderAll(a) + RenderAll(b)
    decreases |a|
  {
    if a != [] {
      assert (a + b)[1..] == a[1..] + b;
      RenderAllConcat(a[1..], b);
    }
  }

  /** Collecting over two key lists one after the other gives the two results one after the other. */
  lemma {:induction false} CollectConcat<K, V>(a: seq<K>, b: seq<K>, slot: K -> Option<V>)
    ensures Collect(a + b, slot) == Collect(a, slot) + Collect(b, slot)
    decreases |a|
  {
    if a == [] {
      assert a + b == b;
    } else {
      assert (a + b)[0] == a[0] && (a + b)[1..] == a[1..] + b;
      CollectConcat(a[1..], b, slot);
    }
  }

  /** One more label adds that label's line, if any. */
  lemma UptoStep(permit: NormalizedPermit, money: real -> string, k: nat, l: Label)
    requires k < |LabelOrder| && LabelOrder[k] == l
    ensures Upto(permit, money, k + 1) == Upto(permit, money, k) + Line(permit, money, l)
  {
    var slot := SlotOf(permit, money);
    assert LabelOrder[..k + 1] == LabelOrder[..k] + [l];
    CollectConcat(LabelOrder[..k], [l], slot);
    assert Collect([l], slot) == Pick(l, slot);
    RenderAllConcat(Collect(LabelOrder[..k], slot), Pick(l, slot));
    LineIsPick(permit, money, l);
  }

  /** Each line is the rendering of that label's slot. */
  lemma LineIsPick(permit: NormalizedPermit, money: real -> string, l: Label)
    ensures Line(permit, money, l) == RenderAll(Pick(l, SlotOf(permit, money)))
  {
  }

  lemma UptoTwo(permit: NormalizedPermit, money: real -> string)
    ensures Upto(permit, money, 2) == Line(permit, money, PermitTypeLabel) + Line(permit, money, WorkClassLabel)
  {
    assert Upto(permit, money, 0) == [];
    UptoStep(permit, money, 0, PermitTypeLabel);
    assert Upto(permit, money, 1) == Line(permit, money, PermitTypeLabel);
    UptoStep(permit, money, 1, WorkClassLabel);
  }

  lemma UptoWork(permit: NormalizedPermit, money: real -> string)
    ensures Upto(permit, money, 4) ==
      Line(permit, money, PermitTypeLabel) + Line(permit, money, WorkClassLabel)
      + Line(permit, money, DescriptionLabel) + Line(permit, money, UseCategoryLabel)
  {
    UptoTwo(permit, money);
    UptoStep(permit, money, 2, DescriptionLabel);
    UptoStep(permit, money, 3, UseCategoryLabel);
  }

  lemma UptoPlace(permit: NormalizedPermit, money: real -> string)
    ensures Upto(permit, money, 6) == Upto(permit, money, 4)
      + Line(permit, money, AddressLabel) + Line(permit, money, CityLabel)
  {
    UptoStep(permit, money, 4, AddressLabel);
    UptoStep(permit, money, 5, CityLabel);
  }

  lemma UptoRest(permit: NormalizedPermit, money: real -> string)
    ensures Upto(permit, money, 8) == Upto(permit, money, 4)
      + Line(permit, money, AddressLabel) + Line(permit, money, CityLabel)
      + Line(permit, money, ContractorLabel) + Line(permit, money, ValuationLabel)
  {
    UptoPlace(permit, money);
    UptoStep(permit, money, 6, ContractorLabel);
    UptoStep(permit, money, 7, ValuationLabel);
  }

  /** The rendered parts of a permit, label by label. */
  lemma PartsRendered(permit: NormalizedPermit, money: real -> string)
    ensures RenderAll(Parts(permit, money)) == EmbeddingLines(permit, money)
  {
    UptoWork(permit, money);
    UptoRest(permit, money);
    assert LabelOrder[..8] == LabelOrder;
  }

  /** Joining no part gives ""; joining non-empty parts gives a non-empty string. */
  lemma {:induction false} JoinEmpty(parts: seq<string>, sep: string)
    requires forall i | 0 <= i < |parts| :: parts[i] != []
    ensures Join(parts, sep) == "" <==> parts == []
  {
    if |parts| > 1 {
      assert |Join(parts, sep)| >= |parts[|parts| - 1]|;
    }
  }

  /** The text is empty exactly when no label's slot is filled. */
  lemma EmbeddingTextEmpty(permit: NormalizedPermit, money: real -> string)
    ensures EmbeddingText(permit, money) == "" <==> forall l: Label :: Slot(permit, money, l).None?
  {
    var slot := SlotOf(permit, money);
    var parts := Parts(permit, money);
    var lines := RenderAll(parts);
    assert EmbeddingText(permit, money) == Join(lines, " | ") by {
      PartsRendered(permit, money);
    }
    assert Join(lines, " | ") == "" <==> parts == [] by {
      JoinEmpty(lines, " | ");
    }
    assert parts == [] <==> forall k | k in LabelOrder :: slot(k).None? by {
      CollectEmpty(LabelOrder, slot);
    }
    assert forall k: Label :: slot(k) == Slot(permit, money, k);
    LabelOrderComplete();
  }

  /** Each label has a part exactly when its slot is filled, and the part carries the slot's body. */
  lemma PartsFaithful(permit: NormalizedPermit, money: real -> string, l: Label)
    ensures Slot(permit, money, l).Some? <==>
      exists i :: 0 <= i < |Parts(permit, money)| && Parts(permit, money)[i].0 == l
    ensures forall i | 0 <= i < |Parts(permit, money)| && Parts(permit, money)[i].0 == l ::
      Slot(permit, money, l) == Some(Parts(permit, money)[i].1)
  {
    assert LabelOrder[Rank(l)] == l;
    CollectFaithful(LabelOrder, SlotOf(permit, money), l);
    assert SlotOf(permit, money)(l) == Slot(permit, money, l);
    assert Parts(permit, money) == Collect(LabelOrder, SlotOf(permit, money));
  }

  /** The parts follow the label order, so no label appears twice. */
  lemma PartsOrdered(permit: NormalizedPermit, money: real -> string)
    ensures forall i, j | 0 <= i < j < |Parts(permit, money)| ::
      Rank(Parts(permit, money)[i].0) < Rank(Parts(permit, money)[j].0)
  {
    var pos := CollectPositions(LabelOrder, SlotOf(permit, money));
    LabelOrderComplete();
  }

  // ---------------------------------------------------------------- the filter dict of search

  /** The `SearchFilters` request model: every field optional. */
  datatype SearchFilters = SearchFilters(
    permit_type: Option<string> := None,
    calendar_year_issued: Option<int> := None,
    work_class: Option<string> := None,
    use_category: Option<string> := None,
    city: Option<string> := None,
    council_district: Option<int> := None)

  /** A filter value: the string fields and the integer fields. */
  datatype FilterValue = Text(text: string) | Number(number: int)

  /** The keys of `filter_dict`, in the order `search` tests them. */
  datatype FilterKey = PermitTypeKey | CalendarYearIssuedKey | WorkClassKey | UseCategoryKey | CityKey | CouncilDistrictKey

  const FilterKeys: seq<FilterKey> :=
    [PermitTypeKey, CalendarYearIssuedKey, WorkClassKey, UseCategoryKey, CityKey, CouncilDistrictKey]

  /** The dict key each filter is stored under. */
  function KeyName(k: FilterKey): (name: string)
    ensures name != []
  {
    match k
    case PermitTypeKey => "permit_type"
    case CalendarYearIssuedKey => "calendar_year_issued"
    case WorkClassKey => "work_class"
    case UseCategoryKey => "use_category"
    case CityKey => "city"
    case CouncilDistrictKey => "council_district"
  }

  /** Distinct keys are stored under distinct names, so the entries form a dict. */
  lemma KeyNamesDistinct(k: FilterKey, k': FilterKey)
    ensures KeyName(k) == KeyName(k') <==> k == k'
  {
  }

  /** A string filter set to a truthy (non-empty) string. */
  function TextFilter(v: Option<string>): Option<FilterValue> {
    if v.Some? && v.value != "" then Some(Text(v.value)) else None
  }

  /** An integer filter set to a truthy (non-zero) integer. */
  function NumberFilter(v: Option<int>): Option<FilterValue> {
    if v.Some? && v.value != 0 then Some(Number(v.value)) else None
  }

  /** The value `search` stores for a key, or None when the field is unset or falsy. */
  function FilterSlot(f: SearchFilters, k: FilterKey): Option<FilterValue> {
    match k
    case PermitTypeKey => TextFilter(f.permit_type)
    case CalendarYearIssuedKey => NumberFilter(f.calendar_year_issued)
    case WorkClassKey => TextFilter(f.work_class)
    case UseCategoryKey => TextFilter(f.use_category)
    case CityKey => TextFilter(f.city)
    case CouncilDistrictKey => NumberFilter(f.council_district)
  }

  function FilterSlotOf(f: SearchFilters): FilterKey -> Option<FilterValue> {
    k => FilterSlot(f, k)
  }

  /** The entries of `filter_dict`, in insertion order. */
  function FilterEntries(f: SearchFilters): seq<(FilterKey, FilterValue)> {
    Collect(FilterKeys, FilterSlotOf(f))
  }

  /** The `filters` argument `search` passes on: None for no filters or no truthy field, else the dict. */
  function FilterArgument(filters: Option<SearchFilters>): Option<seq<(FilterKey, FilterValue)>> {
    if filters.None? || FilterEntries(filters.value) == [] then None else Some(FilterEntries(filters.value))
  }

  /** What `search` stores for one key. */
  function Entry(f: SearchFilters, k: FilterKey): seq<(FilterKey, FilterValue)> {
    match FilterSlot(f, k) case Some(v) => [(k, v)] case None => []
  }

  /** The entries of all six keys, in the tested order. */
  function FilterDictOf(f: SearchFilters): seq<(FilterKey, FilterValue)> {
    Entry(f, PermitTypeKey) + Entry(f, CalendarYearIssuedKey) + Entry(f, WorkClassKey)
      + Entry(f, UseCategoryKey) + Entry(f, CityKey) + Entry(f, CouncilDistrictKey)
  }

  /** One more key of `order` adds that key's entry, if any. */
  lemma CollectPrefixStep<K, V>(order: seq<K>, slot: K -> Option<V>, n: nat, k: K)
    requires n < |order| && order[n] == k
    ensures Collect(order[..n + 1], slot) == Collect(order[..n], slot) + Pick(k, slot)
  {
    assert order[..n + 1] == order[..n] + [k];
    CollectConcat(order[..n], [k], slot);
    assert Collect([k], slot) == Pick(k, slot);
  }

  /** One more filter key adds what `search` stores for it. */
  lemma FilterStep(f: SearchFilters, n: nat, k: FilterKey)
    requires n < |FilterKeys| && FilterKeys[n] == k
    ensures Collect(FilterKeys[..n + 1], FilterSlotOf(f)) == Collect(FilterKeys[..n], FilterSlotOf(f)) + Entry(f, k)
  {
    CollectPrefixStep(FilterKeys, FilterSlotOf(f), n, k);
    assert Pick(k, FilterSlotOf(f)) == Entry(f, k);
  }

  /** The entries of the first three keys. */
  lemma FilterEntriesHead(f: SearchFilters)
    ensures Collect(FilterKeys[..3], FilterSlotOf(f)) ==
      Entry(f, PermitTypeKey) + Entry(f, CalendarYearIssuedKey) + Entry(f, WorkClassKey)
  {
    assert FilterKeys[..0] == [];
    FilterStep(f, 0, PermitTypeKey);
    assert Collect(FilterKeys[..1], FilterSlotOf(f)) == Entry(f, PermitTypeKey);
    FilterStep(f, 1, CalendarYearIssuedKey);
    FilterStep(f, 2, WorkClassKey);
  }

  /** The entries, key by key. */
  lemma FilterEntriesByKey(f: SearchFilters)
    ensures FilterEntries(f) == FilterDictOf(f)
  {
    var slot := FilterSlotOf(f);
    var head := Entry(f, PermitTypeKey) + Entry(f, CalendarYearIssuedKey) + Entry(f, WorkClassKey);
    assert Collect(FilterKeys[..3], slot) == head by {
      FilterEntriesHead(f);
    }
    assert Collect(FilterKeys[..4], slot) == head + Entry(f, UseCategoryKey) by {
      FilterStep(f, 3, UseCategoryKey);
    }
    assert Collect(FilterKeys[..5], slot) == head + Entry(f, UseCategoryKey) + Entry(f, CityKey) by {
      FilterStep(f, 4, CityKey);
    }
    assert Collect(FilterKeys[..6], slot) ==
      head + Entry(f, UseCategoryKey) + Entry(f, CityKey) + Entry(f, CouncilDistrictKey) by {
      FilterStep(f, 5, CouncilDistrictKey);
    }
    assert FilterKeys[..6] == FilterKeys;
  }

  /**
   * The `filters` argument `search` passes to the database: the filter dict
   * if it is non-empty, else None.
   */
  method SearchFilterArgument(filters: Option<SearchFilters>) returns (arg: Option<seq<(FilterKey, FilterValue)>>)
    ensures arg == FilterArgument(filters)
  {
    var filterDict := ConvertFilters(filters);
    arg := if filterDict != [] then Some(filterDict) else None;
  }

  /** "Convert filters to dict": with filters, one `if` per field in key order, each storing a truthy field. */
  method ConvertFilters(filters: Option<SearchFilters>) returns (filterDict: seq<(FilterKey, FilterValue)>)
    ensures filterDict == (if filters.Some? then FilterEntries(filters.value) else [])
  {
    filterDict := [];
    if filters.Some? {
      var f := filters.value;
      ghost var d0 := filterDict;
      if f.permit_type.Some? && f.permit_type.value != "" {
        filterDict := filterDict + [(PermitTypeKey, Text(f.permit_type.value))];
      }
      assert filterDict == d0 + Entry(f, PermitTypeKey);
      ghost var d1 := filterDict;
      if f.calendar_year_issued.Some? && f.calendar_year_issued.value != 0 {
        filterDict := filterDict + [(CalendarYearIssuedKey, Number(f.calendar_year_issued.value))];
      }
      assert filterDict == d1 + Entry(f, CalendarYearIssuedKey);
      ghost var d2 := filterDict;
      if f.work_class.Some? && f.work_class.value != "" {
        filterDict := filterDict + [(WorkClassKey, Text(f.work_class.value))];
      }
      assert filterDict == d2 + Entry(f, WorkClassKey);
      ghost var d3 := filterDict;
      if f.use_category.Some? && f.use_category.value != "" {
        filterDict := filterDict + [(UseCategoryKey, Text(f.use_category.value))];
      }
      assert filterDict == d3 + Entry(f, UseCategoryKey);
      ghost var d4 := filterDict;
      if f.city.Some? && f.city.value != "" {
        filterDict := filterDict + [(CityKey, Text(f.city.value))];
      }
      assert filterDict == d4 + Entry(f, CityKey);
      ghost var d5 := filterDict;
      if f.council_district.Some? && f.council_district.value != 0 {
        filterDict := filterDict + [(CouncilDistrictKey, Number(f.council_district.value))];
      }
      assert filterDict == d5 + Entry(f, CouncilDistrictKey);
      assert filterDict == FilterDictOf(f) by {
        assert d0 == [];
        assert d1 == Entry(f, PermitTypeKey);
      }
      FilterEntriesByKey(f);
    }
  }

  /** The argument is never an empty dict, and it is None exactly when there are no filters or no truthy field. */
  lemma FilterArgumentNeverEmpty(filters: Option<SearchFilters>)
    ensures FilterArgument(filters) != Some([])
    ensures FilterArgument(filters).None? <==>
      filters.None? || forall k: FilterKey :: FilterSlot(filters.value, k).None?
  {
    if filters.Some? {
      CollectEmpty(FilterKeys, FilterSlotOf(filters.value));
      FilterKeysComplete();
    }
  }

  /** The position of a key in the tested order. */
  function KeyRank(k: FilterKey): (n: nat)
    ensures n < |FilterKeys| && FilterKeys[n] == k
  {
    match k
    case PermitTypeKey => 0
    case CalendarYearIssuedKey => 1
    case WorkClassKey => 2
    case UseCategoryKey => 3
    case CityKey => 4
    case CouncilDistrictKey => 5
  }

  /** The order lists every key once. */
  lemma FilterKeysComplete()
    ensures forall k: FilterKey :: k in FilterKeys
    ensures forall n | 0 <= n < |FilterKeys| :: KeyRank(FilterKeys[n]) == n
  {
    forall k: FilterKey ensures k in FilterKeys { assert FilterKeys[KeyRank(k)] == k; }
  }

  /**
   * A key is in the dict exactly when its field is set and truthy, it holds
   * that field's value, and the keys keep the order `search` tests them in.
   */
  lemma FilterEntriesFaithful(f: SearchFilters, k: FilterKey)
    ensures FilterSlot(f, k).Some? <==> exists i :: 0 <= i < |FilterEntries(f)| && FilterEntries(f)[i].0 == k
    ensures forall i | 0 <= i < |FilterEntries(f)| && FilterEntries(f)[i].0 == k ::
      FilterSlot(f, k) == Some(FilterEntries(f)[i].1)
    ensures forall i, j | 0 <= i < j < |FilterEntries(f)| ::
      KeyRank(FilterEntries(f)[i].0) < KeyRank(FilterEntries(f)[j].0)
  {
    assert FilterKeys[KeyRank(k)] == k;
    CollectFaithful(FilterKeys, FilterSlotOf(f), k);
    assert FilterSlotOf(f)(k) == FilterSlot(f, k);
    assert FilterEntries(f) == Collect(FilterKeys, FilterSlotOf(f));
    var pos := CollectPositions(FilterKeys, FilterSlotOf(f));
    FilterKeysComplete();
  }

  /** A string field that is unset or empty, and an integer field that is unset or zero, is left out. */
  lemma FalsyFiltersLeftOut(f: SearchFilters)
    ensures f.permit_type == Some("") ==> FilterSlot(f, PermitTypeKey).None?
    ensures f.council_district == Some(0) ==> FilterSlot(f, CouncilDistrictKey).None?
    ensures FilterArgument(Some(SearchFilters())) == None
  {
    FilterArgumentNeverEmpty(Some(SearchFilters()));
  }
}
