/**
 * The completeness score (`_calculate_quality_score`), identical in both
 * normalizer copies: each of the four essential fields weighs 2, every other
 * key of the cleaned record weighs 1, and the score is the truthy weight over
 * the total weight.
 */
module Quality {
  import opened PyValues

  const Essentials: seq<string> := ["permit_id", "street_address", "permit_type", "issue_date"]

  /** How many of `fields` have a truthy value under `record.get(field)`. */
  function EssentialHits(record: map<string, Value>, fields: seq<string>): (n: nat)
    ensures n <= |fields|
  {
    if fields == [] then 0
    else EssentialHits(record, fields[..|fields| - 1]) + (if Truthy(Get(record, fields[|fields| - 1], Null)) then 1 else 0)
  }

  /** `set(record.keys()) - set(essential_fields)`. */
  function Others(record: map<string, Value>): set<string> {
    set k | k in record && k !in Essentials
  }

  /** The other keys whose value is truthy. */
  function OtherHits(record: map<string, Value>): (hits: set<string>)
    ensures hits <= Others(record)
  {
    set k | k in record && k !in Essentials && Truthy(record[k])
  }

  /** The score `_calculate_quality_score` returns, as an exact ratio. */
  function Score(record: map<string, Value>): real {
    (2 * EssentialHits(record, Essentials) + |OtherHits(record)|) as real / (8 + |Others(record)|) as real
  }

  /** `_calculate_quality_score`, loop for loop: essentials first, then the other keys in any order. */
  method QualityScore(record: map<string, Value>) returns (score: real)
    ensures score == Score(record)
  {
    var points := 0.0;
    var totalWeight := 0.0;
    for i := 0 to |Essentials|
      invariant totalWeight == 2.0 * i as real
      invariant points == 2.0 * EssentialHits(record, Essentials[..i]) as real
    {
      assert Essentials[..i + 1][..i] == Essentials[..i];
      totalWeight := totalWeight + 2.0;
      if Truthy(Get(record, Essentials[i], Null)) {
        points := points + 2.0;
      }
    }
    assert Essentials[..|Essentials|] == Essentials;
    var others := Others(record);
    ghost var hits: set<string> := {};
    ghost var done: nat := 0;
    while others != {}
      invariant others <= Others(record) && |others| + done == |Others(record)|
      invariant hits == OtherHits(record) - others
      invariant totalWeight == 8.0 + done as real
      invariant points == (2 * EssentialHits(record, Essentials) + |hits|) as real
      decreases |others|
    {
      var field :| field in others;
      OthersStep(record, others, hits, field);
      totalWeight := totalWeight + 1.0;
      if Truthy(Get(record, field, Null)) {
        points := points + 1.0;
        hits := hits + {field};
      }
      others := others - {field};
      done := done + 1;
    }
    ScoreFrom(record, points, totalWeight);
    score := if totalWeight > 0.0 then points / totalWeight else 0.0;
  }

  lemma ScoreFrom(record: map<string, Value>, points: real, totalWeight: real)
    requires points == (2 * EssentialHits(record, Essentials) + |OtherHits(record)|) as real
    requires totalWeight == 8.0 + |Others(record)| as real
    ensures totalWeight > 0.0 && points / totalWeight == Score(record)
  {
  }

  lemma OthersStep(record: map<string, Value>, others: set<string>, hits: set<string>, field: string)
    requires field in others && others <= Others(record) && hits == OtherHits(record) - others
    ensures field in record
    ensures (if Truthy(record[field]) then hits + {field} else hits) == OtherHits(record) - (others - {field})
    ensures Truthy(record[field]) ==> |hits + {field}| == |hits| + 1
    ensures |others - {field}| == |others| - 1
  {
  }

  lemma {:induction false} CardSubset(a: set<string>, b: set<string>)
    requires a <= b
    ensures |a| <= |b|
  {
    assert b == a + (b - a);
  }

  /** The count reaches `|fields|` exactly when every field is truthy, and is 0 when none is. */
  lemma {:induction false} EssentialHitsAll(record: map<string, Value>, fields: seq<string>)
    ensures EssentialHits(record, fields) == |fields| <==> forall i | 0 <= i < |fields| :: Truthy(Get(record, fields[i], Null))
    ensures (forall i | 0 <= i < |fields| :: !Truthy(Get(record, fields[i], Null))) ==> EssentialHits(record, fields) == 0
  {
    if fields != [] {
      var pre := fields[..|fields| - 1];
      EssentialHitsAll(record, pre);
      assert forall i | 0 <= i < |pre| :: pre[i] == fields[i];
    }
  }

  /** The score lies in [0, 1]. */
  lemma ScoreBounds(record: map<string, Value>)
    ensures 0.0 <= Score(record) <= 1.0
  {
    CardSubset(OtherHits(record), Others(record));
    RatioBounds(2 * EssentialHits(record, Essentials) + |OtherHits(record)|, 8 + |Others(record)|);
  }

  lemma RatioBounds(a: nat, b: nat)
    requires 0 < b && a <= b
    ensures 0.0 <= a as real / b as real <= 1.0
  {
  }

  /** A record with no keys scores 0. */
  lemma EmptyScoresZero()
    ensures Score(map[]) == 0.0
  {
    assert Others(map[]) == {};
    assert OtherHits(map[]) == {};
    EssentialHitsAll(map[], Essentials);
  }

  /** The score is 1 exactly when every essential and every other key is truthy. */
  lemma ScoreOne(record: map<string, Value>)
    ensures Score(record) == 1.0 <==> EssentialHits(record, Essentials) == 4 && OtherHits(record) == Others(record)
  {
    var e, h, o := EssentialHits(record, Essentials), OtherHits(record), Others(record);
    CardSubset(h, o);
    if h != o {
      var k :| k in o && k !in h;
      CardSubset(h, o - {k});
    }
  }

  /** A record holding only the four essential fields, all truthy, scores 1. */
  lemma OnlyEssentialsScoreOne(record: map<string, Value>)
    requires record.Keys == set f | f in Essentials
    requires forall f | f in Essentials :: Truthy(record[f])
    ensures Score(record) == 1.0
  {
    assert Others(record) == {};
    assert OtherHits(record) == {};
    EssentialHitsAll(record, Essentials);
    ScoreOne(record);
  }
}
