/**
 * Duplicate-field resolution (`handle_duplicate_fields`): the raw pairs are
 * visited in order, each key is canonicalised, absent or blank values are
 * dropped, and a later value replaces an earlier one under the same canonical
 * key only when its `str` is strictly longer.
 */
module Conflicts {
  import opened PyValues
  import opened FieldNames

  /** `len(str(v))`, the measure the resolution compares. */
  function Width(v: Value): nat {
    |PyStr(v)|
  }

  /** The pairs of a raw record with their keys canonicalised, in the same order. */
  function Canonicalize(aliases: AliasTable, record: RawRecord): (r: seq<(string, Value)>)
    ensures |r| == |record|
    ensures forall i | 0 <= i < |r| :: r[i].0 == MapFieldName(aliases, record[i].0) && r[i].1 == record[i].1
    ensures forall i | 0 <= i < |r| :: IsCanonicalKey(r[i].0)
  {
    seq(|record|, i requires 0 <= i < |record| => (MapFieldName(aliases, record[i].0), record[i].1))
  }

  /** Over a closed alias table, canonicalising canonical pairs changes nothing. */
  lemma CanonicalizeIdempotent(aliases: AliasTable, record: RawRecord)
    requires TableClosed(aliases)
    ensures Canonicalize(aliases, Canonicalize(aliases, record)) == Canonicalize(aliases, record)
  {
    var c := Canonicalize(aliases, record);
    forall i | 0 <= i < |c| ensures Canonicalize(aliases, c)[i] == c[i] {
      MapFieldNameIdempotent(aliases, record[i].0);
    }
  }

  /**
   * What one (canonical key, value) pair does to the record built so far;
   * `blank` is the drop test (`IsBlank` in both normalizers).
   */
  function Absorb(cleaned: map<string, Value>, key: string, v: Value, blank: Value -> bool): map<string, Value> {
    if blank(v) then cleaned
    else if key in cleaned && Width(v) <= Width(cleaned[key]) then cleaned
    else cleaned[key := v]
  }

  /** The record the loop has built once it has visited all of `pairs`. */
  function Resolve(pairs: seq<(string, Value)>, blank: Value -> bool): map<string, Value> {
    if pairs == [] then map[]
    else
      var last := pairs[|pairs| - 1];
      Absorb(Resolve(pairs[..|pairs| - 1], blank), last.0, last.1, blank)
  }

  /** What `handle_duplicate_fields` returns for a raw record. */
  function Cleaned(aliases: AliasTable, record: RawRecord): map<string, Value> {
    Resolve(Canonicalize(aliases, record), IsBlank)
  }

  /** Pair `i` carries a value for key `k` that is not dropped. */
  ghost predicate Kept(pairs: seq<(string, Value)>, blank: Value -> bool, i: int, k: string) {
    0 <= i < |pairs| && !blank(pairs[i].1) && pairs[i].0 == k
  }

  /** `handle_duplicate_fields`, loop for loop. */
  method HandleDuplicateFields(aliases: AliasTable, record: RawRecord) returns (cleaned: map<string, Value>)
    ensures cleaned == Cleaned(aliases, record)
  {
    ghost var pairs := Canonicalize(aliases, record);
    cleaned := map[];
    for i := 0 to |record|
      invariant cleaned == Resolve(pairs[..i], IsBlank)
    {
      var (key, value) := record[i];
      var mapped := MapFieldName(aliases, key);
      ResolveStep(pairs, IsBlank, i);
      assert pairs[i] == (mapped, value);
      if IsBlank(value) {
        continue;
      }
      if mapped in cleaned {
        if Width(value) > Width(cleaned[mapped]) {
          cleaned := cleaned[mapped := value];
        }
      } else {
        cleaned := cleaned[mapped := value];
      }
    }
    assert pairs[..|record|] == pairs;
  }

  lemma ResolveStep(pairs: seq<(string, Value)>, blank: Value -> bool, i: int)
    requires 0 <= i < |pairs|
    ensures Resolve(pairs[..i + 1], blank) == Absorb(Resolve(pairs[..i], blank), pairs[i].0, pairs[i].1, blank)
  {
    assert pairs[..i + 1][..i] == pairs[..i];
  }

  /** A pair of the prefix is kept in the prefix exactly when it is kept in the whole sequence. */
  lemma KeptInPrefix(pairs: seq<(string, Value)>, blank: Value -> bool, i: int, k: string)
    requires 0 <= i < |pairs| - 1
    ensures Kept(pairs, blank, i, k) == Kept(pairs[..|pairs| - 1], blank, i, k)
    ensures pairs[i] == pairs[..|pairs| - 1][i]
  {
  }

  lemma AbsorbKeys(cleaned: map<string, Value>, key: string, v: Value, blank: Value -> bool, k: string)
    ensures k in Absorb(cleaned, key, v, blank) <==> k in cleaned || (k == key && !blank(v))
  {
  }

  /** A key is in the resolved record exactly when some pair carries a value for it that is not dropped. */
  lemma {:induction false} ResolveKeys(pairs: seq<(string, Value)>, blank: Value -> bool, k: string)
    ensures k in Resolve(pairs, blank) <==> exists i :: Kept(pairs, blank, i, k)
  {
    if pairs != [] {
      var pre := pairs[..|pairs| - 1];
      var n := |pre|;
      var last := pairs[n];
      var prev := Resolve(pre, blank);
      ResolveKeys(pre, blank, k);
      AbsorbKeys(prev, last.0, last.1, blank, k);
      if k in Resolve(pairs, blank) {
        if k in prev {
          var i :| Kept(pre, blank, i, k);
          KeptInPrefix(pairs, blank, i, k);
        } else {
          assert Kept(pairs, blank, n, k);
        }
      } else {
        forall i | Kept(pairs, blank, i, k)
          ensures false
        {
          if i < n {
            KeptInPrefix(pairs, blank, i, k);
          }
        }
      }
    }
  }

  /**
   * Pair `j` is kept for `k`, no kept pair for `k` is wider, and every
   * earlier kept pair for `k` is strictly narrower: `j` is the first of the
   * widest.
   */
  ghost predicate IsWinner(pairs: seq<(string, Value)>, blank: Value -> bool, k: string, j: int) {
    Kept(pairs, blank, j, k)
    && (forall i | Kept(pairs, blank, i, k) :: Width(pairs[i].1) <= Width(pairs[j].1))
    && (forall i | Kept(pairs, blank, i, k) && i < j :: Width(pairs[i].1) < Width(pairs[j].1))
  }

  /** The value kept for `k` is that of the first of the widest pairs kept for `k`. */
  lemma {:induction false} ResolveWinner(pairs: seq<(string, Value)>, blank: Value -> bool, k: string) returns (j: int)
    requires k in Resolve(pairs, blank)
    ensures IsWinner(pairs, blank, k, j) && Resolve(pairs, blank)[k] == pairs[j].1
  {
    var pre := pairs[..|pairs| - 1];
    var n := |pre|;
    var last := pairs[n];
    var prev := Resolve(pre, blank);
    AbsorbKeys(prev, last.0, last.1, blank, k);
    if last.0 == k && !blank(last.1) && (k !in prev || Width(last.1) > Width(prev[k])) {
      j := n;
      if k in prev {
        var j0 := ResolveWinner(pre, blank, k);
        WinnerLast(pairs, blank, k, j0);
      } else {
        ResolveKeys(pre, blank, k);
        WinnerLast(pairs, blank, k, 0);
      }
    } else {
      j := ResolveWinner(pre, blank, k);
      KeptInPrefix(pairs, blank, j, k);
      WinnerEarlier(pairs, blank, k, j);
    }
  }

  /** The last pair wins when it is kept and is wider than the prefix's winner, if any. */
  lemma WinnerLast(pairs: seq<(string, Value)>, blank: Value -> bool, k: string, j0: int)
    requires pairs != [] && Kept(pairs, blank, |pairs| - 1, k)
    requires var pre := pairs[..|pairs| - 1];
      if k in Resolve(pre, blank) then IsWinner(pre, blank, k, j0) && Width(pairs[|pairs| - 1].1) > Width(pre[j0].1)
      else forall i :: !Kept(pre, blank, i, k)
    ensures IsWinner(pairs, blank, k, |pairs| - 1)
  {
    var n := |pairs| - 1;
    forall i | Kept(pairs, blank, i, k) && i < n
      ensures Width(pairs[i].1) < Width(pairs[n].1)
    {
      KeptInPrefix(pairs, blank, i, k);
    }
  }

  /** The prefix's winner stays the winner when the last pair is not kept for `k` or is no wider. */
  lemma WinnerEarlier(pairs: seq<(string, Value)>, blank: Value -> bool, k: string, j: int)
    requires pairs != [] && IsWinner(pairs[..|pairs| - 1], blank, k, j)
    requires !Kept(pairs, blank, |pairs| - 1, k) || Width(pairs[|pairs| - 1].1) <= Width(pairs[j].1)
    ensures IsWinner(pairs, blank, k, j)
  {
    var n := |pairs| - 1;
    KeptInPrefix(pairs, blank, j, k);
    forall i | Kept(pairs, blank, i, k)
      ensures Width(pairs[i].1) <= Width(pairs[j].1)
    {
      if i < n {
        KeptInPrefix(pairs, blank, i, k);
      }
    }
    forall i | Kept(pairs, blank, i, k) && i < j
      ensures Width(pairs[i].1) < Width(pairs[j].1)
    {
      KeptInPrefix(pairs, blank, i, k);
    }
  }

  /** Nothing the drop test rejects survives the resolution. */
  lemma ResolveNoBlank(pairs: seq<(string, Value)>, blank: Value -> bool, k: string)
    requires k in Resolve(pairs, blank)
    ensures !blank(Resolve(pairs, blank)[k])
  {
    var j := ResolveWinner(pairs, blank, k);
  }
}
