/** Model of the summary part of scripts/generate_report.py: the CSV records
    are gathered into `rows`, then `total`, `down` and `up` are tallied.

    A CSV record is the dictionary `csv.DictReader` yields, a map from column
    name to cell text. Reading the file, the HTML template and the output
    file are not modelled. */
module GenerateReport {

  import CollectMetrics
  import Permutations

  type Record = map<string, string>

  const RecommendationColumn: string := "Recommendation"
  const DownsizeTag: string := "downsize"
  const UpgradeTag: string := "upgrade"

  /** The loop `for r in reader: rows.append(r)`: one row per record, in
      file order. */
  method ReadRows(reader: seq<Record>) returns (rows: seq<Record>)
    ensures |rows| == |reader|
    ensures forall k :: 0 <= k < |rows| ==> rows[k] == reader[k]
  {
    rows := [];
    var k := 0;
    while k < |reader|
      invariant 0 <= k <= |reader|
      invariant rows == reader[..k]
    {
      rows := rows + [reader[k]];
      k := k + 1;
    }
  }

  /** `r['Recommendation'] == tag`, for a record that has the column. */
  predicate Tagged(r: Record, tag: string)
    ensures RecommendationColumn !in r ==> !Tagged(r, tag)
    ensures Tagged(r, tag) ==> r[RecommendationColumn] == tag
    ensures RecommendationColumn in r && r[RecommendationColumn] == tag ==> Tagged(r, tag)
  {
    RecommendationColumn in r && r[RecommendationColumn] == tag
  }

  /** `sum(1 for r in rows if r['Recommendation'] == tag)`, added left to
      right. */
  function CountTagged(rows: seq<Record>, tag: string): (n: nat)
    ensures n <= |rows|
  {
    if rows == [] then 0
    else CountTagged(rows[..|rows| - 1], tag) + (if Tagged(rows[|rows| - 1], tag) then 1 else 0)
  }

  /** The positions of the rows that carry `tag`. */
  ghost function TaggedIndices(rows: seq<Record>, tag: string): set<int>
  {
    set i | 0 <= i < |rows| && Tagged(rows[i], tag)
  }

  /** The tally is the number of positions whose row carries the tag. */
  lemma {:induction false} CountIsTaggedIndices(rows: seq<Record>, tag: string)
    ensures CountTagged(rows, tag) == |TaggedIndices(rows, tag)|
  {
    if rows == [] {
      assert TaggedIndices(rows, tag) == {};
    } else {
      var n := |rows| - 1;
      CountIsTaggedIndices(rows[..n], tag);
      var before := TaggedIndices(rows[..n], tag);
      if Tagged(rows[n], tag) {
        assert TaggedIndices(rows, tag) == before + {n};
      } else {
        assert TaggedIndices(rows, tag) == before;
      }
    }
  }

  /** No row is counted under two different tags. */
  lemma {:induction false} DistinctTagsBounded(rows: seq<Record>, t1: string, t2: string)
    requires t1 != t2
    ensures CountTagged(rows, t1) + CountTagged(rows, t2) <= |rows|
  {
    if rows != [] {
      DistinctTagsBounded(rows[..|rows| - 1], t1, t2);
    }
  }

  lemma {:induction false} CountConcat(a: seq<Record>, b: seq<Record>, tag: string)
    ensures CountTagged(a + b, tag) == CountTagged(a, tag) + CountTagged(b, tag)
  {
    if b == [] {
      assert a + b == a;
    } else {
      var n := |b| - 1;
      CountConcat(a, b[..n], tag);
      assert (a + b)[..|a + b| - 1] == a + b[..n];
    }
  }

  lemma CountRemove(b: seq<Record>, k: int, tag: string)
    requires 0 <= k < |b|
    ensures CountTagged(b, tag) == CountTagged(b[..k] + b[k + 1..], tag) + CountTagged([b[k]], tag)
  {
    assert b == b[..k] + [b[k]] + b[k + 1..];
    CountConcat(b[..k] + [b[k]], b[k + 1..], tag);
    CountConcat(b[..k], [b[k]], tag);
    CountConcat(b[..k], b[k + 1..], tag);
  }

  /** A tally depends only on which rows there are, not on their order. */
  lemma {:induction false} CountPermutation(a: seq<Record>, b: seq<Record>, tag: string)
    requires multiset(a) == multiset(b)
    ensures CountTagged(a, tag) == CountTagged(b, tag)
  {
    if a == [] {
      assert |b| == |multiset(b)| == 0;
    } else {
      var n := |a| - 1;
      var x := a[n];
      assert x in multiset(b);
      var k :| 0 <= k < |b| && b[k] == x;
      var rest := b[..k] + b[k + 1..];
      Permutations.RemovedPermutation(a, b, k);
      CountPermutation(a[..n], rest, tag);
      CountRemove(b, k, tag);
      CountConcat(a[..n], [x], tag);
      assert a == a[..n] + [x];
    }
  }

  datatype Summary = Summary(total: nat, downsize: nat, upgrade: nat)

  /** The summary, or the KeyError `r['Recommendation']` raises on a record
      without that column. */
  datatype Outcome = Ok(summary: Summary) | KeyError(key: string)

  /** `total = len(rows)`, `down = ...`, `up = ...`. */
  function Summarize(rows: seq<Record>): (out: Outcome)
    ensures out.Ok? <==> forall i :: 0 <= i < |rows| ==> RecommendationColumn in rows[i]
    ensures out.KeyError? ==> out.key == RecommendationColumn
    ensures out.Ok? ==> out.summary.total == |rows|
    ensures out.Ok? ==> out.summary.downsize == |TaggedIndices(rows, DownsizeTag)|
    ensures out.Ok? ==> out.summary.upgrade == |TaggedIndices(rows, UpgradeTag)|
    ensures out.Ok? ==> out.summary.downsize + out.summary.upgrade <= out.summary.total
  {
    if exists i :: 0 <= i < |rows| && RecommendationColumn !in rows[i] then
      KeyError(RecommendationColumn)
    else
      CountIsTaggedIndices(rows, DownsizeTag);
      CountIsTaggedIndices(rows, UpgradeTag);
      DistinctTagsBounded(rows, DownsizeTag, UpgradeTag);
      Ok(Summary(|rows|, CountTagged(rows, DownsizeTag), CountTagged(rows, UpgradeTag)))
  }

  /** Reordering the rows changes neither the outcome nor any tally. */
  lemma SummarizePermutation(a: seq<Record>, b: seq<Record>)
    requires multiset(a) == multiset(b)
    ensures Summarize(a) == Summarize(b)
  {
    assert |a| == |multiset(a)| == |multiset(b)| == |b|;
    AllHaveColumnPermutation(a, b);
    AllHaveColumnPermutation(b, a);
    CountPermutation(a, b, DownsizeTag);
    CountPermutation(a, b, UpgradeTag);
  }

  /** Whether every row has the Recommendation column does not depend on
      the order of the rows. */
  lemma AllHaveColumnPermutation(a: seq<Record>, b: seq<Record>)
    requires multiset(a) == multiset(b)
    ensures (forall i :: 0 <= i < |a| ==> RecommendationColumn in a[i]) ==>
            (forall j :: 0 <= j < |b| ==> RecommendationColumn in b[j])
  {
    if forall i :: 0 <= i < |a| ==> RecommendationColumn in a[i] {
      forall j | 0 <= j < |b|
        ensures RecommendationColumn in b[j]
      {
        assert b[j] in multiset(a);
        var i :| 0 <= i < |a| && a[i] == b[j];
      }
    }
  }

  /** Rows tagged with anything other than the two counted tags, such as
      `no-change`, add to the total only. */
  lemma {:induction false} UncountedTagsAddNothing(rows: seq<Record>, extra: seq<Record>)
    requires forall i :: 0 <= i < |extra| ==> RecommendationColumn in extra[i]
    requires forall i :: 0 <= i < |extra| ==> extra[i][RecommendationColumn] != DownsizeTag && extra[i][RecommendationColumn] != UpgradeTag
    requires Summarize(rows).Ok?
    ensures Summarize(rows + extra).Ok?
    ensures Summarize(rows + extra).summary ==
      Summary(|rows| + |extra|, Summarize(rows).summary.downsize, Summarize(rows).summary.upgrade)
  {
    var all := rows + extra;
    assert forall i :: 0 <= i < |all| ==> RecommendationColumn in all[i] by {
      forall i | 0 <= i < |all|
        ensures RecommendationColumn in all[i]
      {
        if i >= |rows| {
          assert all[i] == extra[i - |rows|];
        }
      }
    }
    NoTagInExtra(extra, DownsizeTag);
    NoTagInExtra(extra, UpgradeTag);
    CountConcat(rows, extra, DownsizeTag);
    CountConcat(rows, extra, UpgradeTag);
    CountIsTaggedIndices(rows, DownsizeTag);
    CountIsTaggedIndices(rows, UpgradeTag);
    CountIsTaggedIndices(all, DownsizeTag);
    CountIsTaggedIndices(all, UpgradeTag);
  }

  lemma {:induction false} NoTagInExtra(extra: seq<Record>, tag: string)
    requires forall i :: 0 <= i < |extra| ==> !Tagged(extra[i], tag)
    ensures CountTagged(extra, tag) == 0
  {
    if extra != [] {
      NoTagInExtra(extra[..|extra| - 1], tag);
    }
  }

  /** Read back from a file whose Recommendation column holds each collected
      row's tag, the tallies count the instances whose rounded average is
      below 10 and above 80. */
  lemma CollectedTallies(rows: seq<CollectMetrics.Row>, records: seq<Record>)
    requires |records| == |rows|
    requires forall i :: 0 <= i < |rows| ==>
      RecommendationColumn in records[i] && records[i][RecommendationColumn] == CollectMetrics.Label(rows[i].recommendation)
    requires forall i :: 0 <= i < |rows| ==>
      rows[i].recommendation == CollectMetrics.Recommend(rows[i].instanceType, rows[i].avgCpu)
    ensures Summarize(records).Ok?
    ensures Summarize(records).summary.total == |rows|
    ensures Summarize(records).summary.downsize == |set i | 0 <= i < |rows| && rows[i].avgCpu < 10.0|
    ensures Summarize(records).summary.upgrade == |set i | 0 <= i < |rows| && rows[i].avgCpu > 80.0|
  {
    assert TaggedIndices(records, DownsizeTag) == set i | 0 <= i < |rows| && rows[i].avgCpu < 10.0;
    assert TaggedIndices(records, UpgradeTag) == set i | 0 <= i < |rows| && rows[i].avgCpu > 80.0;
  }
}
