/** Aggregation and grouping over scanned records. Floats are exact reals with infinities. */
module Analytics {
  import opened Values
  import opened Contracts

  datatype AggOp = Count | Sum | Avg | Min | Max

  /** A float, read as a real with the two infinities that empty folds return. */
  datatype Extended = NegInf | Fin(r: real) | PosInf

  datatype ReportDef = ReportDef(
    objectType: string,
    op: AggOp,
    field: Option<string>,
    filters: seq<FieldFilter>,
    groupBy: Option<string>)

  datatype GroupBucket = GroupBucket(key: string, value: Extended, count: nat)

  datatype ReportResult = ReportResult(value: Option<Extended>, groups: seq<GroupBucket>, sampleSize: nat)

  function NumVal(v: Value): Option<real> {
    match v
    case Bool(b) => Some(if b then 1.0 else 0.0)
    case _ => AsReal(v)
  }

  /** The numeric value a record contributes, if any. */
  function Contribution(r: Record, field: Option<string>): Option<real> {
    if field.Some? && field.value in r.data then NumVal(r.data[field.value]) else None
  }

  function Numbers(rows: seq<Record>, field: Option<string>): seq<real> {
    if rows == [] then []
    else
      var c := Contribution(rows[|rows| - 1], field);
      Numbers(rows[..|rows| - 1], field) + (if c.Some? then [c.value] else [])
  }

  function SumOf(vals: seq<real>): real {
    if vals == [] then 0.0 else SumOf(vals[..|vals| - 1]) + vals[|vals| - 1]
  }

  function ExtLeq(a: Extended, b: Extended): bool {
    a.NegInf? || b.PosInf? || (a.Fin? && b.Fin? && a.r <= b.r)
  }

  function ExtMin(a: Extended, b: Extended): Extended {
    if ExtLeq(a, b) then a else b
  }

  function ExtMax(a: Extended, b: Extended): Extended {
    if ExtLeq(a, b) then b else a
  }

  function MinOf(vals: seq<real>): Extended {
    if vals == [] then PosInf else ExtMin(MinOf(vals[..|vals| - 1]), Fin(vals[|vals| - 1]))
  }

  function MaxOf(vals: seq<real>): Extended {
    if vals == [] then NegInf else ExtMax(MaxOf(vals[..|vals| - 1]), Fin(vals[|vals| - 1]))
  }

  function Compute(rows: seq<Record>, op: AggOp, field: Option<string>): Extended {
    var vals := Numbers(rows, field);
    match op
    case Count => Fin(|rows| as real)
    case Sum => Fin(SumOf(vals))
    case Avg => Fin(if vals == [] then 0.0 else SumOf(vals) / |vals| as real)
    case Min => MinOf(vals)
    case Max => MaxOf(vals)
  }

  /** The folds find the extremes: bounds that some value attains, or the far infinity of an
      empty fold. */
  lemma {:induction false} ExtremesAreExtreme(vals: seq<real>)
    ensures forall v | v in vals :: ExtLeq(MinOf(vals), Fin(v)) && ExtLeq(Fin(v), MaxOf(vals))
    ensures if vals == [] then MinOf(vals) == PosInf && MaxOf(vals) == NegInf
            else MinOf(vals).Fin? && MinOf(vals).r in vals && MaxOf(vals).Fin? && MaxOf(vals).r in vals
  {
    if vals != [] {
      var init, last := vals[..|vals| - 1], vals[|vals| - 1];
      assert vals == init + [last];
      ExtremesAreExtreme(init);
    }
  }

  lemma {:induction false} SumLiesBetween(vals: seq<real>, lo: real, hi: real)
    requires forall v | v in vals :: lo <= v <= hi
    ensures lo * |vals| as real <= SumOf(vals) <= hi * |vals| as real
  {
    if vals == [] {
      Nothing(lo);
      Nothing(hi);
    } else {
      var init, last := vals[..|vals| - 1], vals[|vals| - 1];
      assert last in vals && forall v | v in init :: v in vals;
      SumLiesBetween(init, lo, hi);
      OneMore(lo, |init|);
      OneMore(hi, |init|);
    }
  }

  lemma Nothing(x: real)
    ensures x * 0 as real == 0.0
  {
  }

  lemma OneMore(x: real, n: nat)
    ensures x * (n + 1) as real == x * n as real + x
  {
  }

  lemma QuotientBetween(x: real, lo: real, hi: real, n: real)
    requires n > 0.0 && lo * n <= x <= hi * n
    ensures lo <= x / n <= hi
  {
    assert x == (x / n) * n;
  }

  lemma MeanLiesBetween(vals: seq<real>, lo: real, hi: real)
    requires vals != [] && forall v | v in vals :: lo <= v <= hi
    ensures lo <= SumOf(vals) / |vals| as real <= hi
  {
    hide SumOf;
    SumLiesBetween(vals, lo, hi);
    QuotientBetween(SumOf(vals), lo, hi, |vals| as real);
  }

  /** An average lies between the least and the greatest value. */
  lemma AverageLiesBetween(rows: seq<Record>, field: Option<string>)
    requires Numbers(rows, field) != []
    ensures ExtLeq(Compute(rows, Min, field), Compute(rows, Avg, field))
    ensures ExtLeq(Compute(rows, Avg, field), Compute(rows, Max, field))
  {
    hide SumOf, MinOf, MaxOf, Numbers;
    var vals := Numbers(rows, field);
    ExtremesAreExtreme(vals);
    var lo, hi := MinOf(vals).r, MaxOf(vals).r;
    assert forall v | v in vals :: ExtLeq(MinOf(vals), Fin(v)) && lo <= v <= hi;
    MeanLiesBetween(vals, lo, hi);
  }

  // ---- grouping ---------------------------------------------------------------------

  const NO_KEY := "(none)"

  function ValueKey(v: Value, render: Value -> string): string {
    match v
    case Str(s) => s
    case Null => NO_KEY
    case _ => render(v)
  }

  function GroupKey(r: Record, field: string, render: Value -> string): string {
    if field in r.data then ValueKey(r.data[field], render) else NO_KEY
  }

  datatype Bucket = Bucket(key: string, rows: seq<Record>)

  /** The ordered map's `entry(key).or_default().push(row)`. */
  function AddTo(bs: seq<Bucket>, key: string, r: Record): seq<Bucket> {
    if bs == [] then [Bucket(key, [r])]
    else if bs[0].key == key then [Bucket(key, bs[0].rows + [r])] + bs[1..]
    else if StrLess(key, bs[0].key) then [Bucket(key, [r])] + bs
    else [bs[0]] + AddTo(bs[1..], key, r)
  }

  function Group(rows: seq<Record>, field: string, render: Value -> string): seq<Bucket> {
    if rows == [] then []
    else
      var last := rows[|rows| - 1];
      AddTo(Group(rows[..|rows| - 1], field, render), GroupKey(last, field, render), last)
  }

  function Summaries(bs: seq<Bucket>, op: AggOp, field: Option<string>): (r: seq<GroupBucket>)
    ensures |r| == |bs|
    ensures forall i | 0 <= i < |bs| ::
              r[i] == GroupBucket(bs[i].key, Compute(bs[i].rows, op, field), |bs[i].rows|)
  {
    if bs == [] then []
    else [GroupBucket(bs[0].key, Compute(bs[0].rows, op, field), |bs[0].rows|)]
         + Summaries(bs[1..], op, field)
  }

  /** `run_report_def` once the records are scanned. */
  function Report(rows: seq<Record>, def: ReportDef, render: Value -> string): ReportResult {
    if def.groupBy.Some? then
      ReportResult(None, Summaries(Group(rows, def.groupBy.value, render), def.op, def.field), |rows|)
    else
      ReportResult(Some(Compute(rows, def.op, def.field)), [], |rows|)
  }

  /** The bucket-filling loop. */
  method FillBuckets(rows: seq<Record>, field: string, render: Value -> string) returns (buckets: seq<Bucket>)
    ensures buckets == Group(rows, field, render)
  {
    buckets := [];
    for i := 0 to |rows|
      invariant buckets == Group(rows[..i], field, render)
    {
      assert rows[..i + 1][..i] == rows[..i];
      buckets := AddTo(buckets, GroupKey(rows[i], field, render), rows[i]);
    }
    assert rows[..|rows|] == rows;
  }

  /** The pass that turns buckets into summaries. */
  method Summarize(buckets: seq<Bucket>, op: AggOp, field: Option<string>) returns (groups: seq<GroupBucket>)
    ensures groups == Summaries(buckets, op, field)
  {
    hide Summaries, Compute;
    groups := [];
    for i := 0 to |buckets|
      invariant |groups| == i
      invariant forall k | 0 <= k < i :: groups[k] == Summaries(buckets, op, field)[k]
    {
      var b := buckets[i];
      groups := groups + [GroupBucket(b.key, Compute(b.rows, op, field), |b.rows|)];
    }
  }

  method RunReport(rows: seq<Record>, def: ReportDef, render: Value -> string) returns (res: ReportResult)
    ensures res == Report(rows, def, render)
  {
    if def.groupBy.Some? {
      var buckets := FillBuckets(rows, def.groupBy.value, render);
      var groups := Summarize(buckets, def.op, def.field);
      res := ReportResult(None, groups, |rows|);
    } else {
      res := ReportResult(Some(Compute(rows, def.op, def.field)), [], |rows|);
    }
  }

  // ---- buckets partition the records --------------------------------------------------

  ghost predicate KeysIncrease(bs: seq<Bucket>) {
    forall i, j | 0 <= i < j < |bs| :: StrLess(bs[i].key, bs[j].key)
  }

  /** The records with a group key, in scan order. */
  function RowsWithKey(rows: seq<Record>, field: string, render: Value -> string, key: string): seq<Record> {
    if rows == [] then []
    else
      var last := rows[|rows| - 1];
      RowsWithKey(rows[..|rows| - 1], field, render, key)
      + (if GroupKey(last, field, render) == key then [last] else [])
  }

  /** The rows of the bucket with the key; none if there is no such bucket. */
  function RowsIn(bs: seq<Bucket>, key: string): seq<Record> {
    if bs == [] then [] else if bs[0].key == key then bs[0].rows else RowsIn(bs[1..], key)
  }

  lemma {:induction false} AddToKeepsOrder(bs: seq<Bucket>, key: string, r: Record)
    requires KeysIncrease(bs)
    ensures KeysIncrease(AddTo(bs, key, r))
    ensures forall b | b in AddTo(bs, key, r) :: b.key == key || exists x | x in bs :: x.key == b.key
  {
    if bs != [] && bs[0].key != key {
      if StrLess(key, bs[0].key) {
        forall j | 1 <= j < |bs| ensures StrLess(key, bs[j].key) {
          StrLessTransitive(key, bs[0].key, bs[j].key);
        }
      } else {
        AddToKeepsOrder(bs[1..], key, r);
        StrLessTotal(key, bs[0].key);
        forall b | b in AddTo(bs[1..], key, r) ensures StrLess(bs[0].key, b.key) {
          if b.key != key {
            var x :| x in bs[1..] && x.key == b.key;
          }
        }
      }
    }
  }

  lemma {:induction false} AddToAddsOneRow(bs: seq<Bucket>, key: string, r: Record, k: string)
    requires KeysIncrease(bs)
    ensures RowsIn(AddTo(bs, key, r), k) == RowsIn(bs, k) + (if k == key then [r] else [])
    ensures (forall b | b in bs :: b.rows != []) ==> forall b | b in AddTo(bs, key, r) :: b.rows != []
  {
    if bs != [] && bs[0].key != key {
      if StrLess(key, bs[0].key) {
        AbsentBelow(bs, key);
      } else {
        assert bs[1..] == [] || StrLess(bs[0].key, bs[1].key);
        AddToAddsOneRow(bs[1..], key, r, k);
      }
    }
  }

  lemma {:induction false} AbsentBelow(bs: seq<Bucket>, key: string)
    requires KeysIncrease(bs) && bs != [] && StrLess(key, bs[0].key)
    ensures RowsIn(bs, key) == []
  {
    StrLessIrreflexive(key);
    if |bs| > 1 {
      StrLessTransitive(key, bs[0].key, bs[1].key);
      AbsentBelow(bs[1..], key);
    }
  }

  lemma {:induction false} RowsInAt(bs: seq<Bucket>, i: nat)
    requires KeysIncrease(bs) && i < |bs|
    ensures RowsIn(bs, bs[i].key) == bs[i].rows
  {
    if i > 0 {
      StrLessIrreflexive(bs[i].key);
      assert bs[0].key != bs[i].key;
      RowsInAt(bs[1..], i - 1);
    }
  }

  /** Buckets carry strictly increasing keys, none is empty, and the bucket under a key holds
      exactly the records with that key, in scan order; a key without a bucket has no record. */
  lemma {:induction false} GroupsPartition(rows: seq<Record>, field: string, render: Value -> string)
    ensures var bs := Group(rows, field, render);
            && KeysIncrease(bs)
            && (forall b | b in bs :: b.rows != [] && b.rows == RowsWithKey(rows, field, render, b.key))
            && (forall key :: (forall b | b in bs :: b.key != key)
                              ==> RowsWithKey(rows, field, render, key) == [])
  {
    var bs := Group(rows, field, render);
    GroupsByKey(rows, field, render);
    forall b | b in bs ensures b.rows == RowsWithKey(rows, field, render, b.key) {
      var i :| 0 <= i < |bs| && bs[i] == b;
      RowsInAt(bs, i);
    }
    forall key | forall b | b in bs :: b.key != key
      ensures RowsWithKey(rows, field, render, key) == []
    {
      NoBucketNoRows(bs, key);
    }
  }

  lemma {:induction false} NoBucketNoRows(bs: seq<Bucket>, key: string)
    requires forall b | b in bs :: b.key != key
    ensures RowsIn(bs, key) == []
  {
    if bs != [] {
      NoBucketNoRows(bs[1..], key);
    }
  }

  lemma {:induction false} GroupsByKey(rows: seq<Record>, field: string, render: Value -> string)
    ensures var bs := Group(rows, field, render);
            && KeysIncrease(bs)
            && (forall b | b in bs :: b.rows != [])
            && (forall key :: RowsIn(bs, key) == RowsWithKey(rows, field, render, key))
  {
    if rows != [] {
      var init, last := rows[..|rows| - 1], rows[|rows| - 1];
      var bs, k := Group(init, field, render), GroupKey(last, field, render);
      GroupsByKey(init, field, render);
      AddToKeepsOrder(bs, k, last);
      AddToAddsOneRow(bs, k, last, k);
      forall key ensures RowsIn(AddTo(bs, k, last), key) == RowsWithKey(rows, field, render, key) {
        AddToAddsOneRow(bs, k, last, key);
      }
    }
  }

  // ---- aggregates survive grouping ------------------------------------------------------

  function TotalCount(bs: seq<GroupBucket>): nat {
    if bs == [] then 0 else bs[0].count + TotalCount(bs[1..])
  }

  /** The sum of the buckets' values (a bucket's sum is always finite). */
  function TotalSum(bs: seq<GroupBucket>): real {
    if bs == [] then 0.0 else (if bs[0].value.Fin? then bs[0].value.r else 0.0) + TotalSum(bs[1..])
  }

  function LeastValue(bs: seq<GroupBucket>): Extended {
    if bs == [] then PosInf else ExtMin(bs[0].value, LeastValue(bs[1..]))
  }

  function GreatestValue(bs: seq<GroupBucket>): Extended {
    if bs == [] then NegInf else ExtMax(bs[0].value, GreatestValue(bs[1..]))
  }

  lemma NumbersAppend(rows: seq<Record>, r: Record, field: Option<string>)
    ensures var c := Contribution(r, field);
            Numbers(rows + [r], field) == Numbers(rows, field) + (if c.Some? then [c.value] else [])
  {
  }

  /** Adding a row to a bucket moves each aggregate by that row's contribution alone. */
  lemma ComputeAppend(rows: seq<Record>, r: Record, field: Option<string>)
    ensures var c := Contribution(r, field);
            && Compute(rows + [r], Sum, field)
               == Fin(Compute(rows, Sum, field).r + if c.Some? then c.value else 0.0)
            && Compute(rows + [r], Min, field)
               == (if c.Some? then ExtMin(Compute(rows, Min, field), Fin(c.value)) else Compute(rows, Min, field))
            && Compute(rows + [r], Max, field)
               == (if c.Some? then ExtMax(Compute(rows, Max, field), Fin(c.value)) else Compute(rows, Max, field))
  {
    var c, vals := Contribution(r, field), Numbers(rows, field);
    NumbersAppend(rows, r, field);
    if c.Some? {
      assert (vals + [c.value])[..|vals|] == vals;
    } else {
      assert vals + [] == vals;
    }
  }

  lemma {:induction false} AddToCounts(bs: seq<Bucket>, key: string, r: Record, op: AggOp, field: Option<string>)
    ensures TotalCount(Summaries(AddTo(bs, key, r), op, field)) == TotalCount(Summaries(bs, op, field)) + 1
  {
    if bs != [] && bs[0].key != key && !StrLess(key, bs[0].key) {
      AddToCounts(bs[1..], key, r, op, field);
      SummariesCons(bs[0], AddTo(bs[1..], key, r), op, field);
    } else if bs != [] && bs[0].key == key {
      SummariesCons(Bucket(key, bs[0].rows + [r]), bs[1..], op, field);
    } else {
      SummariesCons(Bucket(key, [r]), bs, op, field);
      assert AddTo(bs, key, r) == [Bucket(key, [r])] + bs;
    }
  }

  lemma SummariesCons(b: Bucket, bs: seq<Bucket>, op: AggOp, field: Option<string>)
    ensures Summaries([b] + bs, op, field)
            == [GroupBucket(b.key, Compute(b.rows, op, field), |b.rows|)] + Summaries(bs, op, field)
  {
  }

  lemma {:induction false} AddToSums(bs: seq<Bucket>, key: string, r: Record, field: Option<string>)
    ensures var c := Contribution(r, field);
            TotalSum(Summaries(AddTo(bs, key, r), Sum, field))
            == TotalSum(Summaries(bs, Sum, field)) + if c.Some? then c.value else 0.0
  {
    if bs != [] && bs[0].key != key && !StrLess(key, bs[0].key) {
      AddToSums(bs[1..], key, r, field);
      SummariesCons(bs[0], AddTo(bs[1..], key, r), Sum, field);
    } else if bs != [] && bs[0].key == key {
      ComputeAppend(bs[0].rows, r, field);
      SummariesCons(Bucket(key, bs[0].rows + [r]), bs[1..], Sum, field);
    } else {
      ComputeAppend([], r, field);
      assert [] + [r] == [r];
      SummariesCons(Bucket(key, [r]), bs, Sum, field);
      assert AddTo(bs, key, r) == [Bucket(key, [r])] + bs;
    }
  }

  lemma NewLeast(bs: seq<Bucket>, key: string, r: Record, field: Option<string>)
    ensures var c, was := Contribution(r, field), LeastValue(Summaries(bs, Min, field));
            LeastValue(Summaries([Bucket(key, [r])] + bs, Min, field))
            == if c.Some? then ExtMin(was, Fin(c.value)) else was
  {
    ComputeAppend([], r, field);
    assert [] + [r] == [r];
    SummariesCons(Bucket(key, [r]), bs, Min, field);
  }

  lemma GrownLeast(b: Bucket, rest: seq<Bucket>, r: Record, field: Option<string>)
    ensures var c, was := Contribution(r, field), LeastValue(Summaries([b] + rest, Min, field));
            LeastValue(Summaries([Bucket(b.key, b.rows + [r])] + rest, Min, field))
            == if c.Some? then ExtMin(was, Fin(c.value)) else was
  {
    ComputeAppend(b.rows, r, field);
    SummariesCons(Bucket(b.key, b.rows + [r]), rest, Min, field);
    SummariesCons(b, rest, Min, field);
  }

  lemma {:induction false} AddToLeast(bs: seq<Bucket>, key: string, r: Record, field: Option<string>)
    ensures var c, was := Contribution(r, field), LeastValue(Summaries(bs, Min, field));
            LeastValue(Summaries(AddTo(bs, key, r), Min, field))
            == if c.Some? then ExtMin(was, Fin(c.value)) else was
  {
    hide Contribution, StrLess;
    if bs == [] || (bs[0].key != key && StrLess(key, bs[0].key)) {
      NewLeast(bs, key, r, field);
      assert AddTo(bs, key, r) == [Bucket(key, [r])] + bs;
    } else if bs[0].key == key {
      GrownLeast(bs[0], bs[1..], r, field);
      assert bs == [bs[0]] + bs[1..];
    } else {
      AddToLeast(bs[1..], key, r, field);
      SummariesCons(bs[0], AddTo(bs[1..], key, r), Min, field);
    }
  }

  lemma NewGreatest(bs: seq<Bucket>, key: string, r: Record, field: Option<string>)
    ensures var c, was := Contribution(r, field), GreatestValue(Summaries(bs, Max, field));
            GreatestValue(Summaries([Bucket(key, [r])] + bs, Max, field))
            == if c.Some? then ExtMax(was, Fin(c.value)) else was
  {
    ComputeAppend([], r, field);
    assert [] + [r] == [r];
    SummariesCons(Bucket(key, [r]), bs, Max, field);
  }

  lemma GrownGreatest(b: Bucket, rest: seq<Bucket>, r: Record, field: Option<string>)
    ensures var c, was := Contribution(r, field), GreatestValue(Summaries([b] + rest, Max, field));
            GreatestValue(Summaries([Bucket(b.key, b.rows + [r])] + rest, Max, field))
            == if c.Some? then ExtMax(was, Fin(c.value)) else was
  {
    ComputeAppend(b.rows, r, field);
    SummariesCons(Bucket(b.key, b.rows + [r]), rest, Max, field);
    SummariesCons(b, rest, Max, field);
  }

  lemma {:induction false} AddToGreatest(bs: seq<Bucket>, key: string, r: Record, field: Option<string>)
    ensures var c, was := Contribution(r, field), GreatestValue(Summaries(bs, Max, field));
            GreatestValue(Summaries(AddTo(bs, key, r), Max, field))
            == if c.Some? then ExtMax(was, Fin(c.value)) else was
  {
    hide Contribution, StrLess;
    if bs == [] || (bs[0].key != key && StrLess(key, bs[0].key)) {
      NewGreatest(bs, key, r, field);
      assert AddTo(bs, key, r) == [Bucket(key, [r])] + bs;
    } else if bs[0].key == key {
      GrownGreatest(bs[0], bs[1..], r, field);
      assert bs == [bs[0]] + bs[1..];
    } else {
      AddToGreatest(bs[1..], key, r, field);
      SummariesCons(bs[0], AddTo(bs[1..], key, r), Max, field);
    }
  }

  lemma {:induction false} GroupingConservesCount(
    rows: seq<Record>, op: AggOp, field: Option<string>, group: string, render: Value -> string)
    ensures TotalCount(Summaries(Group(rows, group, render), op, field)) == |rows|
  {
    if rows != [] {
      var init, last := rows[..|rows| - 1], rows[|rows| - 1];
      GroupingConservesCount(init, op, field, group, render);
      AddToCounts(Group(init, group, render), GroupKey(last, group, render), last, op, field);
    }
  }

  lemma {:induction false} GroupingConservesSum(
    rows: seq<Record>, field: Option<string>, group: string, render: Value -> string)
    ensures Fin(TotalSum(Summaries(Group(rows, group, render), Sum, field))) == Compute(rows, Sum, field)
  {
    if rows != [] {
      var init, last := rows[..|rows| - 1], rows[|rows| - 1];
      assert rows == init + [last];
      GroupingConservesSum(init, field, group, render);
      ComputeAppend(init, last, field);
      AddToSums(Group(init, group, render), GroupKey(last, group, render), last, field);
    }
  }

  lemma {:induction false} GroupingConservesMin(
    rows: seq<Record>, field: Option<string>, group: string, render: Value -> string)
    ensures LeastValue(Summaries(Group(rows, group, render), Min, field)) == Compute(rows, Min, field)
  {
    if rows != [] {
      var init, last := rows[..|rows| - 1], rows[|rows| - 1];
      assert rows == init + [last];
      GroupingConservesMin(init, field, group, render);
      ComputeAppend(init, last, field);
      AddToLeast(Group(init, group, render), GroupKey(last, group, render), last, field);
    }
  }

  lemma {:induction false} GroupingConservesMax(
    rows: seq<Record>, field: Option<string>, group: string, render: Value -> string)
    ensures GreatestValue(Summaries(Group(rows, group, render), Max, field)) == Compute(rows, Max, field)
  {
    if rows != [] {
      var init, last := rows[..|rows| - 1], rows[|rows| - 1];
      assert rows == init + [last];
      GroupingConservesMax(init, field, group, render);
      ComputeAppend(init, last, field);
      AddToGreatest(Group(init, group, render), GroupKey(last, group, render), last, field);
    }
  }

  /** A grouped report and its ungrouped twin agree: bucket counts add up to the sample size,
      bucket sums to the ungrouped sum, and the extremes of the buckets' extremes are the
      ungrouped ones, including buckets that hold no number at all. */
  lemma GroupedReportAgrees(rows: seq<Record>, def: ReportDef, render: Value -> string)
    requires def.groupBy.Some?
    ensures var grouped, plain := Report(rows, def, render), Report(rows, def.(groupBy := None), render);
            && grouped.sampleSize == plain.sampleSize == TotalCount(grouped.groups)
            && (def.op.Sum? || def.op.Count? ==> plain.value == Some(Fin(TotalSum(grouped.groups))))
            && (def.op.Min? ==> plain.value == Some(LeastValue(grouped.groups)))
            && (def.op.Max? ==> plain.value == Some(GreatestValue(grouped.groups)))
  {
    var group := def.groupBy.value;
    GroupingConservesCount(rows, def.op, def.field, group, render);
    GroupingConservesSum(rows, def.field, group, render);
    GroupingConservesMin(rows, def.field, group, render);
    GroupingConservesMax(rows, def.field, group, render);
    if def.op.Count? {
      CountsAreSums(Group(rows, group, render), def.field);
    }
  }

  lemma {:induction false} CountsAreSums(bs: seq<Bucket>, field: Option<string>)
    ensures TotalSum(Summaries(bs, Count, field)) == TotalCount(Summaries(bs, Count, field)) as real
  {
    if bs != [] {
      CountsAreSums(bs[1..], field);
    }
  }
}
