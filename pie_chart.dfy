/**
 * The pie chart component (frontend/src/components/PieChart.js): it selects
 * one column of a table (and a value column when summing), groups the rows by
 * the text of that column, and charts one slice per group, either the number
 * of rows in it or the sum of their values.
 *
 * The groups are the properties of a plain JavaScript object: the labels are
 * `Object.keys` of it and the values `Object.values`, so they come in property
 * order, which puts keys that are array indices first, in ascending numeric
 * order, and the other keys after them in the order they were first set.
 */
module PieChart {
  import opened Js
  import opened Seqs

  /** The group of a row whose grouping value is null or undefined. */
  const Placeholder: string := "–– vacío ––"

  /** `row[groupBy] ?? '–– vacío ––'`, as the property key it becomes. */
  function GroupKey(row: JsObject, groupBy: string): (k: string)
    ensures Nullish(Prop(row, groupBy)) ==> k == Placeholder
    ensures !Nullish(Prop(row, groupBy)) ==> k == ToJsString(Prop(row, groupBy))
  {
    var v := Prop(row, groupBy);
    if Nullish(v) then Placeholder else ToJsString(v)
  }

  /** `Number(v) || 0`: NaN and 0 give 0. */
  function NumberOrZero(v: JsValue): int
  {
    match ToNumber(v)
    case None => 0
    case Some(n) => n
  }

  /** What one row adds to its group: its value in sum mode, 1 otherwise. */
  function Contribution(row: JsObject, aggregate: string, valueCol: string): int
  {
    if aggregate == "sum" then NumberOrZero(Prop(row, valueCol)) else 1
  }

  /** The total of group `key` over `rows`. */
  function GroupSum(rows: seq<JsObject>, key: string, groupBy: string, aggregate: string, valueCol: string): int
    decreases |rows|
  {
    if rows == [] then 0
    else
      var last := rows[|rows| - 1];
      GroupSum(rows[..|rows| - 1], key, groupBy, aggregate, valueCol)
      + (if GroupKey(last, groupBy) == key then Contribution(last, aggregate, valueCol) else 0)
  }

  /** What all rows add together. */
  function Total(rows: seq<JsObject>, aggregate: string, valueCol: string): int
    decreases |rows|
  {
    if rows == [] then 0
    else Total(rows[..|rows| - 1], aggregate, valueCol) + Contribution(rows[|rows| - 1], aggregate, valueCol)
  }

  /** No value occurs twice. */
  ghost predicate Distinct(s: seq<string>)
  {
    forall x :: multiset(s)[x] <= 1
  }

  /** The group keys in the order their first row comes, each once. */
  function FirstOccurrences(rows: seq<JsObject>, groupBy: string): (r: seq<string>)
    ensures Distinct(r)
    ensures forall k :: k in r <==> exists j :: 0 <= j < |rows| && GroupKey(rows[j], groupBy) == k
    decreases |rows|
  {
    if rows == [] then []
    else
      var prefix := rows[..|rows| - 1];
      var p := FirstOccurrences(prefix, groupBy);
      var k := GroupKey(rows[|rows| - 1], groupBy);
      assert forall j :: 0 <= j < |prefix| ==> prefix[j] == rows[j];
      if k in p then p
      else
        assert multiset(p)[k] == 0;
        p + [k]
  }

  /** A further row adds its key at the end, unless the key is already there. */
  lemma FirstOccurrencesStep(rows: seq<JsObject>, row: JsObject, groupBy: string)
    ensures var p := FirstOccurrences(rows, groupBy);
            FirstOccurrences(rows + [row], groupBy) == if GroupKey(row, groupBy) in p then p else p + [GroupKey(row, groupBy)]
  {
    assert (rows + [row])[..|rows|] == rows;
  }

  // ---------------------------------------------------------------------------
  // How rows add up

  /** A group no row belongs to totals 0. */
  lemma {:induction false} AbsentGroupIsZero(rows: seq<JsObject>, key: string, groupBy: string, aggregate: string,
                                             valueCol: string)
    requires forall j :: 0 <= j < |rows| ==> GroupKey(rows[j], groupBy) != key
    ensures GroupSum(rows, key, groupBy, aggregate, valueCol) == 0
    decreases |rows|
  {
    if rows != [] {
      var prefix := rows[..|rows| - 1];
      assert forall j :: 0 <= j < |prefix| ==> prefix[j] == rows[j];
      AbsentGroupIsZero(prefix, key, groupBy, aggregate, valueCol);
    }
  }

  /** A further row adds its contribution to its own group and to no other. */
  lemma RowAddsToOwnGroup(rows: seq<JsObject>, row: JsObject, key: string, groupBy: string, aggregate: string,
                          valueCol: string)
    ensures GroupSum(rows + [row], key, groupBy, aggregate, valueCol)
            == GroupSum(rows, key, groupBy, aggregate, valueCol)
               + (if GroupKey(row, groupBy) == key then Contribution(row, aggregate, valueCol) else 0)
  {
    assert (rows + [row])[..|rows|] == rows;
  }

  /** A row whose grouping value is null or undefined is counted in the
      placeholder group. */
  lemma NullGoesToPlaceholder(rows: seq<JsObject>, row: JsObject, groupBy: string, aggregate: string, valueCol: string)
    requires Nullish(Prop(row, groupBy))
    ensures GroupSum(rows + [row], Placeholder, groupBy, aggregate, valueCol)
            == GroupSum(rows, Placeholder, groupBy, aggregate, valueCol) + Contribution(row, aggregate, valueCol)
  {
    RowAddsToOwnGroup(rows, row, Placeholder, groupBy, aggregate, valueCol);
  }

  /** In sum mode a row whose value is NaN or 0 changes no group. */
  lemma NothingFromNaNOrZero(rows: seq<JsObject>, row: JsObject, key: string, groupBy: string, valueCol: string)
    requires ToNumber(Prop(row, valueCol)).None? || ToNumber(Prop(row, valueCol)) == Some(0)
    ensures GroupSum(rows + [row], key, groupBy, "sum", valueCol) == GroupSum(rows, key, groupBy, "sum", valueCol)
  {
    RowAddsToOwnGroup(rows, row, key, groupBy, "sum", valueCol);
  }

  /** In count mode every row adds exactly 1. */
  lemma {:induction false} CountIsLength(rows: seq<JsObject>, aggregate: string, valueCol: string)
    requires aggregate != "sum"
    ensures Total(rows, aggregate, valueCol) == |rows|
    decreases |rows|
  {
    if rows != [] {
      CountIsLength(rows[..|rows| - 1], aggregate, valueCol);
    }
  }

  // ---------------------------------------------------------------------------
  // Sums over the groups

  function SumBy<T>(ks: seq<T>, f: T -> int): int
  {
    if ks == [] then 0 else f(ks[0]) + SumBy(ks[1..], f)
  }

  function Sum(s: seq<int>): int
  {
    if s == [] then 0 else s[0] + Sum(s[1..])
  }

  lemma {:induction false} SumByAppend<T>(ks: seq<T>, k: T, f: T -> int)
    ensures SumBy(ks + [k], f) == SumBy(ks, f) + f(k)
  {
    if ks != [] {
      assert (ks + [k])[1..] == ks[1..] + [k];
      SumByAppend(ks[1..], k, f);
    }
  }

  lemma {:induction false} SumByRemove<T>(ks: seq<T>, j: nat, f: T -> int)
    requires j < |ks|
    ensures SumBy(ks, f) == f(ks[j]) + SumBy(ks[..j] + ks[j + 1..], f)
  {
    if j > 0 {
      SumByRemove(ks[1..], j - 1, f);
      assert ks[1..][..j - 1] + ks[1..][j..] == (ks[..j] + ks[j + 1..])[1..];
    } else {
      assert ks[..0] + ks[1..] == ks[1..];
    }
  }

  /** A sum over keys does not depend on their order. */
  lemma {:induction false} SumByPermutation<T>(a: seq<T>, b: seq<T>, f: T -> int)
    requires multiset(a) == multiset(b)
    ensures SumBy(a, f) == SumBy(b, f)
    decreases |a|
  {
    if a == [] {
      assert |b| == |multiset(b)| == 0;
    } else {
      var x := a[0];
      assert x in multiset(b);
      var j :| 0 <= j < |b| && b[j] == x;
      var rest := b[..j] + b[j + 1..];
      RemoveFromBoth(a, b, j);
      SumByPermutation(a[1..], rest, f);
      SumByRemove(b, j, f);
    }
  }

  /** Taking the first element of `a` and the same element of `b` out of two
      permutations leaves two permutations. */
  lemma RemoveFromBoth<T>(a: seq<T>, b: seq<T>, j: nat)
    requires a != [] && j < |b| && b[j] == a[0]
    requires multiset(a) == multiset(b)
    ensures multiset(a[1..]) == multiset(b[..j] + b[j + 1..])
  {
    assert a == [a[0]] + a[1..];
    assert b == b[..j] + [b[j]] + b[j + 1..];
    assert multiset(a[1..]) == multiset(a) - multiset{a[0]};
    assert multiset(b[..j] + b[j + 1..]) == multiset(b) - multiset{b[j]};
  }

  /** The list of values is the sum over the keys they belong to. */
  lemma {:induction false} SumOfValues<T>(keys: seq<T>, f: T -> int, values: seq<int>)
    requires |values| == |keys|
    requires forall i :: 0 <= i < |keys| ==> values[i] == f(keys[i])
    ensures Sum(values) == SumBy(keys, f)
  {
    if keys != [] {
      SumOfValues(keys[1..], f, values[1..]);
    }
  }

  /** The total of each group, over `rows`. */
  function GroupTotal(rows: seq<JsObject>, groupBy: string, aggregate: string, valueCol: string): string -> int
  {
    (k: string) => GroupSum(rows, k, groupBy, aggregate, valueCol)
  }

  lemma {:induction false} AddRowToGroups(rows: seq<JsObject>, row: JsObject, keys: seq<string>, groupBy: string,
                                          aggregate: string, valueCol: string)
    requires Distinct(keys)
    ensures SumBy(keys, GroupTotal(rows + [row], groupBy, aggregate, valueCol))
            == SumBy(keys, GroupTotal(rows, groupBy, aggregate, valueCol))
               + (if GroupKey(row, groupBy) in keys then Contribution(row, aggregate, valueCol) else 0)
  {
    if keys != [] {
      assert keys == [keys[0]] + keys[1..];
      assert multiset(keys) == multiset{keys[0]} + multiset(keys[1..]);
      assert Distinct(keys[1..]) by {
        forall x ensures multiset(keys[1..])[x] <= 1 {
          assert multiset(keys)[x] <= 1;
        }
      }
      assert keys[0] !in keys[1..] by {
        assert multiset(keys)[keys[0]] <= 1;
      }
      AddRowToGroups(rows, row, keys[1..], groupBy, aggregate, valueCol);
      RowAddsToOwnGroup(rows, row, keys[0], groupBy, aggregate, valueCol);
    }
  }

  /** The groups together hold every row's contribution exactly once. */
  lemma {:induction false} GroupsSumToTotal(rows: seq<JsObject>, groupBy: string, aggregate: string, valueCol: string)
    ensures SumBy(FirstOccurrences(rows, groupBy), GroupTotal(rows, groupBy, aggregate, valueCol))
            == Total(rows, aggregate, valueCol)
    decreases |rows|
  {
    if rows != [] {
      var prefix, row := rows[..|rows| - 1], rows[|rows| - 1];
      assert rows == prefix + [row];
      var keys := FirstOccurrences(prefix, groupBy);
      var k := GroupKey(row, groupBy);
      GroupsSumToTotal(prefix, groupBy, aggregate, valueCol);
      AddRowToGroups(prefix, row, keys, groupBy, aggregate, valueCol);
      if k !in keys {
        SumByAppend(keys, k, GroupTotal(rows, groupBy, aggregate, valueCol));
        AbsentGroupIsZero(prefix, k, groupBy, aggregate, valueCol);
        RowAddsToOwnGroup(prefix, row, k, groupBy, aggregate, valueCol);
      }
    }
  }

  // ---------------------------------------------------------------------------
  // Property order of `Object.keys`

  /** A canonical array index: decimal digits without a leading zero, below 2^32 - 1. */
  predicate IsArrayIndex(s: string)
  {
    s != [] && AllDigits(s) && (s[0] != '0' || |s| == 1) && DigitsValue(s) < 0xFFFF_FFFF
  }

  predicate IsOtherKey(s: string)
  {
    !IsArrayIndex(s)
  }

  function KeyNumber(s: string): nat
  {
    if AllDigits(s) then DigitsValue(s) else 0
  }

  predicate IndexLe(a: string, b: string)
  {
    KeyNumber(a) <= KeyNumber(b)
  }

  lemma IndexLeIsTotalPreorder()
    ensures TotalPreorder(IndexLe)
  {
  }

  /** The array-index keys, in ascending numeric order. */
  function IndexKeys(order: seq<string>): (r: seq<string>)
    ensures multiset(r) == multiset(Filter(order, IsArrayIndex))
    ensures Sorted(r, IndexLe)
  {
    IndexLeIsTotalPreorder();
    SortBy(Filter(order, IsArrayIndex), IndexLe)
  }

  /** The other keys, in the order they were first set. */
  function OtherKeys(order: seq<string>): seq<string>
  {
    Filter(order, IsOtherKey)
  }

  /** `Object.keys` of an object whose keys were first set in the order `order`:
      the same keys, the array indices first, then the others (see
      `ObjectKeysOrder`). */
  function ObjectKeys(order: seq<string>): (r: seq<string>)
    ensures multiset(r) == multiset(order)
  {
    KeysSplit(order);
    IndexKeys(order) + OtherKeys(order)
  }

  lemma KeysSplit(order: seq<string>)
    ensures multiset(IndexKeys(order)) + multiset(OtherKeys(order)) == multiset(order)
  {
    FilterSplit(order, IsArrayIndex, IsOtherKey);
  }

  /** The array indices come first, in ascending order; the other keys follow
      them in the order they were set. */
  lemma ObjectKeysOrder(order: seq<string>)
    ensures ObjectKeys(order) == IndexKeys(order) + OtherKeys(order)
    ensures forall i :: 0 <= i < |IndexKeys(order)| ==> IsArrayIndex(IndexKeys(order)[i])
    ensures Sorted(IndexKeys(order), IndexLe)
    ensures forall i :: 0 <= i < |OtherKeys(order)| ==> !IsArrayIndex(OtherKeys(order)[i])
    ensures Subsequence(OtherKeys(order), order)
  {
    IndexKeysAreIndices(order);
    FilterPasses(order, IsOtherKey);
  }

  lemma IndexKeysAreIndices(order: seq<string>)
    ensures forall i :: 0 <= i < |IndexKeys(order)| ==> IsArrayIndex(IndexKeys(order)[i])
  {
    var sorted := IndexKeys(order);
    forall i | 0 <= i < |sorted| ensures IsArrayIndex(sorted[i]) {
      assert sorted[i] in multiset(Filter(order, IsArrayIndex));
      FilterMembership(order, IsArrayIndex, sorted[i]);
    }
  }

  /** `Object.values`, in the order of the keys given. */
  function ValuesAt(keys: seq<string>, m: map<string, int>): (r: seq<int>)
    requires forall k :: k in keys ==> k in m
    ensures |r| == |keys|
    ensures forall i :: 0 <= i < |keys| ==> r[i] == m[keys[i]]
  {
    if keys == [] then [] else [m[keys[0]]] + ValuesAt(keys[1..], m)
  }

  // ---------------------------------------------------------------------------
  // The chart

  /** The slice labels for `rows`. */
  function ChartLabels(rows: seq<JsObject>, groupBy: string): seq<string>
  {
    ObjectKeys(FirstOccurrences(rows, groupBy))
  }

  /** The slice values: the total of each label's group, in label order. */
  function ChartValues(rows: seq<JsObject>, groupBy: string, aggregate: string, valueCol: string): (r: seq<int>)
    ensures |r| == |ChartLabels(rows, groupBy)|
    ensures forall i :: 0 <= i < |r| ==> r[i] == GroupSum(rows, ChartLabels(rows, groupBy)[i], groupBy, aggregate, valueCol)
  {
    var labels := ChartLabels(rows, groupBy);
    seq(|labels|, i requires 0 <= i < |labels| => GroupSum(rows, labels[i], groupBy, aggregate, valueCol))
  }

  /** Every group is one slice: the labels are the group keys, each once. */
  lemma LabelsAreTheGroups(rows: seq<JsObject>, groupBy: string)
    ensures Distinct(ChartLabels(rows, groupBy))
    ensures forall k :: k in ChartLabels(rows, groupBy) <==> exists j :: 0 <= j < |rows| && GroupKey(rows[j], groupBy) == k
  {
    var order := FirstOccurrences(rows, groupBy);
    var labels := ChartLabels(rows, groupBy);
    assert multiset(labels) == multiset(order);
    forall k ensures k in labels <==> k in order {
      assert (k in labels) == (k in multiset(labels));
      assert (k in order) == (k in multiset(order));
    }
  }

  /** The keys of a map that holds exactly the groups of `rows` are the labels,
      and their values the slice values. */
  lemma ValuesAreTheSlices(rows: seq<JsObject>, groupBy: string, aggregate: string, valueCol: string,
                           totals: map<string, int>)
    requires forall k :: k in totals <==> k in FirstOccurrences(rows, groupBy)
    requires forall k :: k in totals ==> totals[k] == GroupSum(rows, k, groupBy, aggregate, valueCol)
    ensures (forall k :: k in ChartLabels(rows, groupBy) ==> k in totals)
            && ValuesAt(ChartLabels(rows, groupBy), totals) == ChartValues(rows, groupBy, aggregate, valueCol)
  {
    var order := FirstOccurrences(rows, groupBy);
    var labels := ChartLabels(rows, groupBy);
    assert multiset(labels) == multiset(order);
    forall k | k in labels ensures k in totals {
      assert k in multiset(labels);
    }
    var values, chart := ValuesAt(labels, totals), ChartValues(rows, groupBy, aggregate, valueCol);
    forall i | 0 <= i < |labels| ensures values[i] == chart[i] {
      assert labels[i] in totals;
    }
  }

  /** The slices add up to the contributions of all rows. */
  lemma ChartSumsToTotal(rows: seq<JsObject>, groupBy: string, aggregate: string, valueCol: string)
    ensures Sum(ChartValues(rows, groupBy, aggregate, valueCol)) == Total(rows, aggregate, valueCol)
  {
    var f := GroupTotal(rows, groupBy, aggregate, valueCol);
    var labels := ChartLabels(rows, groupBy);
    SumOfValues(labels, f, ChartValues(rows, groupBy, aggregate, valueCol));
    SumByPermutation(labels, FirstOccurrences(rows, groupBy), f);
    GroupsSumToTotal(rows, groupBy, aggregate, valueCol);
  }

  /** In count mode the slices add up to the number of rows. */
  lemma CountSlicesSumToRows(rows: seq<JsObject>, groupBy: string, aggregate: string, valueCol: string)
    requires aggregate != "sum"
    ensures Sum(ChartValues(rows, groupBy, aggregate, valueCol)) == |rows|
  {
    ChartSumsToTotal(rows, groupBy, aggregate, valueCol);
    CountIsLength(rows, aggregate, valueCol);
  }

  /** The `data` and `error` of the query. */
  datatype QueryAnswer = QueryError(message: string) | Rows(data: seq<JsObject>)

  /** `supabase.from(table).select(columns)`. */
  datatype Query = Query(table: string, columns: string)

  /** The selected columns: the grouping column, and the value column only in sum mode. */
  function SelectList(groupBy: string, aggregate: string, valueCol: string): string
  {
    groupBy + (if aggregate == "sum" then ", " + valueCol else "")
  }

  lemma SelectNamesValueColOnlyToSum(groupBy: string, aggregate: string, valueCol: string)
    ensures aggregate == "sum" ==> SelectList(groupBy, aggregate, valueCol) == groupBy + ", " + valueCol
    ensures aggregate != "sum" ==> SelectList(groupBy, aggregate, valueCol) == groupBy
  {
  }

  /** `totals` holds the sum of every group of `rows`, and `order` lists the
      groups in the order their first row comes. */
  ghost predicate Grouped(rows: seq<JsObject>, totals: map<string, int>, order: seq<string>,
                          groupBy: string, aggregate: string, valueCol: string)
  {
    && order == FirstOccurrences(rows, groupBy)
    && (forall k :: k in totals <==> k in order)
    && (forall k :: k in totals ==> totals[k] == GroupSum(rows, k, groupBy, aggregate, valueCol))
  }

  /** The grouping loop: `data.forEach(row => { map[key] = (map[key] || 0) + val })`.
      `order` is the order in which the keys were first set. */
  method Group(rows: seq<JsObject>, groupBy: string, aggregate: string, valueCol: string)
    returns (totals: map<string, int>, order: seq<string>)
    ensures Grouped(rows, totals, order, groupBy, aggregate, valueCol)
  {
    totals, order := map[], [];
    var i := 0;
    while i < |rows|
      invariant 0 <= i <= |rows|
      invariant Grouped(rows[..i], totals, order, groupBy, aggregate, valueCol)
    {
      var key := GroupKey(rows[i], groupBy);
      // `map[key] || 0`: an absent key reads as undefined, which is falsy.
      var prev := if key in totals then totals[key] else 0;
      var order' := if key in totals then order else order + [key];
      var totals' := totals[key := prev + Contribution(rows[i], aggregate, valueCol)];
      GroupStep(rows, i, totals, order, totals', order', groupBy, aggregate, valueCol);
      totals, order := totals', order';
      i := i + 1;
    }
    assert rows[..|rows|] == rows;
  }

  /** One turn of the grouping loop, over row `i`, keeps the map and the key
      order in step with the rows seen so far. */
  lemma GroupStep(rows: seq<JsObject>, i: nat, totals: map<string, int>, order: seq<string>,
                  totals': map<string, int>, order': seq<string>,
                  groupBy: string, aggregate: string, valueCol: string)
    requires i < |rows|
    requires Grouped(rows[..i], totals, order, groupBy, aggregate, valueCol)
    requires order' == if GroupKey(rows[i], groupBy) in totals then order else order + [GroupKey(rows[i], groupBy)]
    requires totals' == totals[GroupKey(rows[i], groupBy) :=
                         (if GroupKey(rows[i], groupBy) in totals then totals[GroupKey(rows[i], groupBy)] else 0)
                         + Contribution(rows[i], aggregate, valueCol)]
    ensures Grouped(rows[..i + 1], totals', order', groupBy, aggregate, valueCol)
  {
    assert rows[..i + 1] == rows[..i] + [rows[i]];
    AddRowKeepsGrouped(rows[..i], rows[i], totals, order, totals', order', groupBy, aggregate, valueCol);
  }

  /** Adding a row to `map` as the loop does keeps it the grouping of the longer list. */
  lemma AddRowKeepsGrouped(prefix: seq<JsObject>, row: JsObject, totals: map<string, int>, order: seq<string>,
                           totals': map<string, int>, order': seq<string>,
                           groupBy: string, aggregate: string, valueCol: string)
    requires Grouped(prefix, totals, order, groupBy, aggregate, valueCol)
    requires order' == if GroupKey(row, groupBy) in totals then order else order + [GroupKey(row, groupBy)]
    requires totals' == totals[GroupKey(row, groupBy) :=
                         (if GroupKey(row, groupBy) in totals then totals[GroupKey(row, groupBy)] else 0)
                         + Contribution(row, aggregate, valueCol)]
    ensures Grouped(prefix + [row], totals', order', groupBy, aggregate, valueCol)
  {
    var key := GroupKey(row, groupBy);
    FirstOccurrencesStep(prefix, row, groupBy);
    if key !in order {
      assert forall j :: 0 <= j < |prefix| ==> GroupKey(prefix[j], groupBy) != key;
      AbsentGroupIsZero(prefix, key, groupBy, aggregate, valueCol);
    }
    AddRowTotals(prefix, row, totals, totals', groupBy, aggregate, valueCol);
  }

  /** The sums in the updated map are the group sums of the longer list. */
  lemma AddRowTotals(prefix: seq<JsObject>, row: JsObject, totals: map<string, int>, totals': map<string, int>,
                     groupBy: string, aggregate: string, valueCol: string)
    requires forall k :: k in totals ==> totals[k] == GroupSum(prefix, k, groupBy, aggregate, valueCol)
    requires GroupKey(row, groupBy) !in totals ==> GroupSum(prefix, GroupKey(row, groupBy), groupBy, aggregate, valueCol) == 0
    requires totals' == totals[GroupKey(row, groupBy) :=
                         (if GroupKey(row, groupBy) in totals then totals[GroupKey(row, groupBy)] else 0)
                         + Contribution(row, aggregate, valueCol)]
    ensures forall k :: k in totals' ==> totals'[k] == GroupSum(prefix + [row], k, groupBy, aggregate, valueCol)
  {
    forall k | k in totals'
      ensures totals'[k] == GroupSum(prefix + [row], k, groupBy, aggregate, valueCol)
    {
      RowAddsToOwnGroup(prefix, row, k, groupBy, aggregate, valueCol);
    }
  }

  class PieChartState {
    var labels: seq<string>
    var dataSet: seq<int>

    constructor()
      ensures labels == [] && dataSet == []
    {
      labels := [];
      dataSet := [];
    }

    /** `fetchData`: on a query error the chart keeps what it showed; otherwise
        one slice per group, labels and values index-aligned. */
    method FetchData(table: string, groupBy: string, aggregate: string, valueCol: string, answer: QueryAnswer)
      returns (query: Query)
      modifies this
      ensures query == Query(table, SelectList(groupBy, aggregate, valueCol))
      ensures answer.QueryError? ==> labels == old(labels) && dataSet == old(dataSet)
      ensures answer.Rows? ==>
                labels == ChartLabels(answer.data, groupBy)
                && dataSet == ChartValues(answer.data, groupBy, aggregate, valueCol)
    {
      query := Query(table, SelectList(groupBy, aggregate, valueCol));
      if answer.QueryError? {
        return;
      }
      var totals, order := Group(answer.data, groupBy, aggregate, valueCol);
      ValuesAreTheSlices(answer.data, groupBy, aggregate, valueCol, totals);
      var keys := ObjectKeys(order);
      labels := keys;
      dataSet := ValuesAt(keys, totals);
    }
  }
}
