/** Record ordering: the comparator, the stable sort, and when the two make sense together. */
module Sorting {
  import opened Values
  import opened Contracts

  /** `NewestFirst` is the store's `ORDER BY created_at DESC`; `ByField` is the caller's sort. */
  datatype Order = NewestFirst | ByField(field: string)

  const CREATED_AT := "created_at"

  function CompareInts(a: int, b: int): Ordering {
    if a < b then Less else if a > b then Greater else Equal
  }

  function CompareReals(a: real, b: real): Ordering {
    if a < b then Less else if a > b then Greater else Equal
  }

  /** `compare_field`'s comparison of two optional values. */
  function CompareValues(a: Option<Value>, b: Option<Value>): Ordering {
    if a.Some? && b.Some? && AsReal(a.value).Some? && AsReal(b.value).Some? then
      CompareReals(AsReal(a.value).value, AsReal(b.value).value)
    else if a.Some? && b.Some? && a.value.Str? && b.value.Str? then
      CompareStrings(a.value.s, b.value.s)
    else if a.Some? && b.None? then Greater
    else if a.None? && b.Some? then Less
    else Equal
  }

  function CompareField(a: Record, b: Record, field: string): Ordering {
    if field == CREATED_AT then CompareInts(a.createdAt, b.createdAt)
    else CompareValues(Lookup(a.data, field), Lookup(b.data, field))
  }

  function Cmp(o: Order, a: Record, b: Record): Ordering {
    match o
    case NewestFirst => CompareInts(b.createdAt, a.createdAt)
    case ByField(field) => CompareField(a, b, field)
  }

  predicate Leq(o: Order, a: Record, b: Record) {
    !Cmp(o, a, b).Greater?
  }

  predicate Tie(o: Order, a: Record, b: Record) {
    Cmp(o, a, b).Equal?
  }

  // ---- the sort -------------------------------------------------------------

  /** Puts x behind every row it does not come before. */
  function Insert(o: Order, rows: seq<Record>, x: Record): seq<Record> {
    if rows != [] && Cmp(o, rows[|rows| - 1], x).Greater?
    then Insert(o, rows[..|rows| - 1], x) + [rows[|rows| - 1]]
    else rows + [x]
  }

  function Sorted(o: Order, rows: seq<Record>): seq<Record> {
    if rows == [] then []
    else Insert(o, Sorted(o, rows[..|rows| - 1]), rows[|rows| - 1])
  }

  function Reversed<T>(s: seq<T>): (r: seq<T>)
    ensures |r| == |s|
    ensures forall i | 0 <= i < |s| :: r[i] == s[|s| - 1 - i]
  {
    if s == [] then [] else [s[|s| - 1]] + Reversed(s[..|s| - 1])
  }

  lemma {:induction false} InsertKeepsRows(o: Order, rows: seq<Record>, x: Record)
    ensures multiset(Insert(o, rows, x)) == multiset(rows) + multiset{x}
  {
    if rows != [] {
      assert rows == rows[..|rows| - 1] + [rows[|rows| - 1]];
      InsertKeepsRows(o, rows[..|rows| - 1], x);
    }
  }

  /** Sorting never loses or repeats a row, whatever the comparator does. */
  lemma {:induction false} SortedKeepsRows(o: Order, rows: seq<Record>)
    ensures multiset(Sorted(o, rows)) == multiset(rows)
    ensures |Sorted(o, rows)| == |rows|
    ensures forall r :: r in Sorted(o, rows) <==> r in rows
  {
    if rows != [] {
      assert rows == rows[..|rows| - 1] + [rows[|rows| - 1]];
      SortedKeepsRows(o, rows[..|rows| - 1]);
      InsertKeepsRows(o, Sorted(o, rows[..|rows| - 1]), rows[|rows| - 1]);
    }
    assert |multiset(Sorted(o, rows))| == |multiset(rows)|;
    forall r ensures r in Sorted(o, rows) <==> r in rows {
      assert r in multiset(Sorted(o, rows)) <==> r in multiset(rows);
    }
  }

  // ---- when the comparator is an order --------------------------------------

  /** The comparator is transitive on these rows (it is always total). */
  ghost predicate IsPreorder(o: Order, rows: seq<Record>) {
    forall a, b, c | a in rows && b in rows && c in rows ::
      Leq(o, a, b) && Leq(o, b, c) ==> Leq(o, a, c)
  }

  lemma ComparesOppositely(o: Order, a: Record, b: Record)
    ensures Cmp(o, a, b).Less? <==> Cmp(o, b, a).Greater?
    ensures Tie(o, a, a)
  {
    if o.ByField? {
      var x, y := Lookup(a.data, o.field), Lookup(b.data, o.field);
      if x.Some? && x.value.Str? {
        StrLessIrreflexive(x.value.s);
        if y.Some? && y.value.Str? {
          if StrLess(x.value.s, y.value.s) { StrLessAsymmetric(x.value.s, y.value.s); }
          if StrLess(y.value.s, x.value.s) { StrLessAsymmetric(y.value.s, x.value.s); }
        }
      }
    }
  }

  predicate AllNumbers(rows: seq<Record>, field: string) {
    forall r | r in rows && field in r.data :: AsReal(r.data[field]).Some?
  }

  predicate AllStrings(rows: seq<Record>, field: string) {
    forall r | r in rows && field in r.data :: r.data[field].Str?
  }

  /** No two present values of the field compare strictly. */
  predicate AllTied(rows: seq<Record>, field: string) {
    forall a, b | a in rows && b in rows && field in a.data && field in b.data ::
      Tie(ByField(field), a, b)
  }

  lemma StringsOrderTransitively(a: string, b: string, c: string)
    requires !CompareStrings(a, b).Greater? && !CompareStrings(b, c).Greater?
    ensures !CompareStrings(a, c).Greater?
  {
    StrLessTotal(a, b);
    StrLessTotal(b, c);
    if StrLess(a, b) && StrLess(b, c) {
      StrLessTransitive(a, b, c);
    }
  }

  lemma HomogeneousIsTransitive(field: string, rows: seq<Record>, a: Record, b: Record, c: Record)
    requires AllNumbers(rows, field) || AllStrings(rows, field) || AllTied(rows, field)
    requires a in rows && b in rows && c in rows
    requires Leq(ByField(field), a, b) && Leq(ByField(field), b, c)
    ensures Leq(ByField(field), a, c)
  {
    if field != CREATED_AT && field in a.data && field in b.data && field in c.data {
      if AllStrings(rows, field) && !AllNumbers(rows, field) {
        StringsOrderTransitively(a.data[field].s, b.data[field].s, c.data[field].s);
      } else if AllTied(rows, field) {
        assert Tie(ByField(field), a, c);
      }
    }
  }

  /** `compare_field` orders a list consistently exactly when the present values are all
      numbers, all strings, or indistinguishable. */
  lemma PreorderExactlyWhenHomogeneous(field: string, rows: seq<Record>)
    requires field != CREATED_AT
    ensures IsPreorder(ByField(field), rows) <==>
            AllNumbers(rows, field) || AllStrings(rows, field) || AllTied(rows, field)
  {
    var o := ByField(field);
    if AllNumbers(rows, field) || AllStrings(rows, field) || AllTied(rows, field) {
      forall a, b, c | a in rows && b in rows && c in rows && Leq(o, a, b) && Leq(o, b, c)
        ensures Leq(o, a, c)
      {
        HomogeneousIsTransitive(field, rows, a, b, c);
      }
    } else {
      var a, b :| a in rows && b in rows && field in a.data && field in b.data && !Tie(o, a, b);
      ComparesOppositely(o, a, b);
      var lo, hi := if Cmp(o, a, b).Less? then a else b, if Cmp(o, a, b).Less? then b else a;
      var mid :| mid in rows && field in mid.data
        && (if lo.data[field].Str? then !mid.data[field].Str? else AsReal(mid.data[field]).None?);
      assert Tie(o, hi, mid) && Tie(o, mid, lo);
      assert Leq(o, hi, mid) && Leq(o, mid, lo) && !Leq(o, hi, lo);
    }
  }

  /** Sorting by creation time needs no such care. */
  lemma CreationTimeIsPreorder(rows: seq<Record>)
    ensures IsPreorder(NewestFirst, rows) && IsPreorder(ByField(CREATED_AT), rows)
  {
  }

  // ---- the sort is stable and ordered ----------------------------------------

  ghost predicate Ordered(o: Order, rows: seq<Record>) {
    forall i, j | 0 <= i < j < |rows| :: Leq(o, rows[i], rows[j])
  }

  /** The rows that tie with x, in their order in the list. */
  function TiedWith(o: Order, rows: seq<Record>, x: Record): seq<Record> {
    if rows == [] then []
    else
      TiedWith(o, rows[..|rows| - 1], x)
      + (if Tie(o, rows[|rows| - 1], x) then [rows[|rows| - 1]] else [])
  }

  /** `sorted` is an ordered rearrangement of `rows` that keeps tied rows in place relative
      to each other: the contract of a stable sort. */
  ghost predicate StablySorts(o: Order, rows: seq<Record>, sorted: seq<Record>) {
    && Ordered(o, sorted)
    && multiset(sorted) == multiset(rows)
    && forall x | x in rows :: TiedWith(o, sorted, x) == TiedWith(o, rows, x)
  }

  /** In an ordered list the rows without the field come first. */
  lemma MissingSortsFirst(field: string, rows: seq<Record>, sorted: seq<Record>)
    requires field != CREATED_AT && StablySorts(ByField(field), rows, sorted)
    ensures forall i, j | 0 <= i < j < |sorted| :: field !in sorted[j].data ==> field !in sorted[i].data
  {
    forall i, j | 0 <= i < j < |sorted| && field !in sorted[j].data ensures field !in sorted[i].data {
      assert Leq(ByField(field), sorted[i], sorted[j]);
    }
  }

  lemma {:induction false} TiedWithAppend(o: Order, rows: seq<Record>, y: Record, x: Record)
    ensures TiedWith(o, rows + [y], x) ==
            TiedWith(o, rows, x) + (if Tie(o, y, x) then [y] else [])
  {
  }

  lemma {:induction false} NoneTied(o: Order, rows: seq<Record>, x: Record)
    requires forall r | r in rows :: !Tie(o, r, x)
    ensures TiedWith(o, rows, x) == []
  {
    if rows != [] {
      NoneTied(o, rows[..|rows| - 1], x);
    }
  }

  lemma {:induction false} InsertOrders(o: Order, rows: seq<Record>, x: Record, all: seq<Record>)
    requires Ordered(o, rows) && IsPreorder(o, all)
    requires x in all && forall r | r in rows :: r in all
    ensures Ordered(o, Insert(o, rows, x))
    ensures forall r :: r in Insert(o, rows, x) <==> r in rows || r == x
  {
    if rows != [] {
      var init, last := rows[..|rows| - 1], rows[|rows| - 1];
      assert rows == init + [last];
      if Cmp(o, last, x).Greater? {
        InsertOrders(o, init, x, all);
        ComparesOppositely(o, last, x);
        ComparesOppositely(o, x, last);
        forall r | r in Insert(o, init, x) ensures Leq(o, r, last) {
          if r in init {
            var i :| 0 <= i < |init| && init[i] == r;
            assert Leq(o, rows[i], rows[|rows| - 1]);
          }
        }
      } else {
        forall r | r in rows ensures Leq(o, r, x) {
          var i :| 0 <= i < |rows| && rows[i] == r;
          ComparesOppositely(o, last, last);
          assert Leq(o, r, last) && Leq(o, last, x);
        }
      }
    }
  }

  lemma {:induction false} InsertKeepsTies(o: Order, rows: seq<Record>, x: Record, y: Record, all: seq<Record>)
    requires IsPreorder(o, all) && x in all && y in all && forall r | r in rows :: r in all
    ensures TiedWith(o, Insert(o, rows, x), y) ==
            TiedWith(o, rows, y) + (if Tie(o, x, y) then [x] else [])
  {
    TiedWithAppend(o, rows, x, y);
    if rows != [] && Cmp(o, rows[|rows| - 1], x).Greater? {
      var init, last := rows[..|rows| - 1], rows[|rows| - 1];
      InsertKeepsTies(o, init, x, y, all);
      TiedWithAppend(o, Insert(o, init, x), last, y);
      StrictlyApart(o, last, x, y, all);
    }
  }

  /** Two rows that compare strictly never tie with the same row. */
  lemma StrictlyApart(o: Order, a: Record, b: Record, y: Record, all: seq<Record>)
    requires IsPreorder(o, all) && a in all && b in all && y in all && Cmp(o, a, b).Greater?
    ensures !(Tie(o, a, y) && Tie(o, b, y))
  {
  }

  lemma PreorderOnPart(o: Order, part: seq<Record>, all: seq<Record>)
    requires IsPreorder(o, all) && forall r | r in part :: r in all
    ensures IsPreorder(o, part)
  {
  }

  /** The sort is a stable sort wherever the comparator is an order. */
  lemma {:induction false} SortIsStable(o: Order, rows: seq<Record>)
    requires IsPreorder(o, rows)
    ensures StablySorts(o, rows, Sorted(o, rows))
  {
    SortedKeepsRows(o, rows);
    if rows != [] {
      var init, last := rows[..|rows| - 1], rows[|rows| - 1];
      PreorderOnPart(o, init, rows);
      SortIsStable(o, init);
      SortedKeepsRows(o, init);
      InsertOrders(o, Sorted(o, init), last, rows);
      forall x | x in rows ensures TiedWith(o, Sorted(o, rows), x) == TiedWith(o, rows, x) {
        InsertKeepsTies(o, Sorted(o, init), last, x, rows);
        if x !in init {
          TiesOnOneClass(o, init, Sorted(o, init), x, rows);
        }
      }
    }
  }

  /** Two rearrangements that agree on the ties of every row of `rows` agree on the ties of
      any row: it either ties with one of them or with none. */
  lemma TiesOnOneClass(o: Order, rows: seq<Record>, sorted: seq<Record>, x: Record, all: seq<Record>)
    requires IsPreorder(o, all) && x in all && forall r | r in rows :: r in all
    requires StablySorts(o, rows, sorted)
    ensures TiedWith(o, sorted, x) == TiedWith(o, rows, x)
  {
    forall r ensures r in sorted <==> r in rows {
      assert r in multiset(sorted) <==> r in multiset(rows);
    }
    if y :| y in rows && Tie(o, y, x) {
      SameClass(o, rows, x, y, all);
      SameClass(o, sorted, x, y, all);
    } else {
      NoneTied(o, rows, x);
      NoneTied(o, sorted, x);
    }
  }

  lemma {:induction false} SameClass(o: Order, rows: seq<Record>, x: Record, y: Record, all: seq<Record>)
    requires IsPreorder(o, all) && x in all && y in all && forall r | r in rows :: r in all
    requires Tie(o, y, x)
    ensures TiedWith(o, rows, x) == TiedWith(o, rows, y)
  {
    if rows != [] {
      var last := rows[|rows| - 1];
      SameClass(o, rows[..|rows| - 1], x, y, all);
      ComparesOppositely(o, x, y);
      ComparesOppositely(o, last, x);
      ComparesOppositely(o, last, y);
      ComparesOppositely(o, y, x);
      assert last in rows;
    }
  }

  /** The contract of a stable sort leaves no freedom: any routine that meets it returns
      this very sequence. */
  lemma {:induction false} StableSortIsUnique(o: Order, rows: seq<Record>, a: seq<Record>, b: seq<Record>)
    requires IsPreorder(o, rows)
    requires StablySorts(o, rows, a) && StablySorts(o, rows, b)
    ensures a == b
  {
    forall x | x in a ensures TiedWith(o, a, x) == TiedWith(o, b, x) {
      assert x in multiset(rows);
    }
    OrderedByClassesIsUnique(o, a, b);
  }

  ghost predicate SameTies(o: Order, a: seq<Record>, b: seq<Record>) {
    forall x | x in a :: TiedWith(o, a, x) == TiedWith(o, b, x)
  }

  lemma {:induction false} OrderedByClassesIsUnique(o: Order, a: seq<Record>, b: seq<Record>)
    requires Ordered(o, a) && Ordered(o, b) && multiset(a) == multiset(b) && SameTies(o, a, b)
    ensures a == b
    decreases |a|
  {
    assert |a| == |multiset(a)| == |multiset(b)| == |b|;
    if a != [] {
      var a', b', x := a[..|a| - 1], b[..|a| - 1], a[|a| - 1];
      SameLast(o, a, b);
      assert a == a' + [x] && b == b' + [x];
      DropLastKeepsRows(a', b', x);
      DropLastKeepsSameTies(o, a', b', x);
      PrefixOrdered(o, a', x);
      PrefixOrdered(o, b', x);
      OrderedByClassesIsUnique(o, a', b');
    }
  }

  lemma DropLastKeepsSameTies(o: Order, a: seq<Record>, b: seq<Record>, x: Record)
    requires SameTies(o, a + [x], b + [x])
    ensures SameTies(o, a, b)
  {
    forall z | z in a ensures TiedWith(o, a, z) == TiedWith(o, b, z) {
      assert z in a + [x];
      TiedWithAppend(o, a, x, z);
      TiedWithAppend(o, b, x, z);
      Cancel(TiedWith(o, a, z), TiedWith(o, b, z), if Tie(o, x, z) then [x] else []);
    }
  }

  lemma Cancel<T>(a: seq<T>, b: seq<T>, tail: seq<T>)
    requires a + tail == b + tail
    ensures a == b
  {
    assert |a + tail| == |b + tail|;
    assert a == (a + tail)[..|a|] && b == (b + tail)[..|b|];
  }

  lemma DropLastKeepsRows(a: seq<Record>, b: seq<Record>, x: Record)
    requires multiset(a + [x]) == multiset(b + [x])
    ensures multiset(a) == multiset(b)
  {
    assert multiset(a) == multiset(a + [x]) - multiset{x};
    assert multiset(b) == multiset(b + [x]) - multiset{x};
  }

  lemma PrefixOrdered(o: Order, a: seq<Record>, x: Record)
    requires Ordered(o, a + [x])
    ensures Ordered(o, a)
  {
    forall i, j | 0 <= i < j < |a| ensures Leq(o, a[i], a[j]) {
      assert (a + [x])[i] == a[i] && (a + [x])[j] == a[j];
    }
  }

  lemma SameLast(o: Order, a: seq<Record>, b: seq<Record>)
    requires |a| == |b| > 0
    requires Ordered(o, a) && Ordered(o, b) && multiset(a) == multiset(b) && SameTies(o, a, b)
    ensures a[|a| - 1] == b[|b| - 1]
  {
    var x, y := a[|a| - 1], b[|b| - 1];
    assert x in multiset(b) && y in multiset(a);
    LastIsGreatest(o, a, y);
    LastIsGreatest(o, b, x);
    ComparesOppositely(o, x, y);
    ComparesOppositely(o, x, x);
    LastOfTies(o, a, x);
    LastOfTies(o, b, x);
  }

  lemma LastOfTies(o: Order, rows: seq<Record>, x: Record)
    requires rows != [] && Tie(o, rows[|rows| - 1], x)
    ensures var ties := TiedWith(o, rows, x);
            ties != [] && ties[|ties| - 1] == rows[|rows| - 1]
  {
  }

  lemma LastIsGreatest(o: Order, rows: seq<Record>, r: Record)
    requires Ordered(o, rows) && r in rows
    ensures Leq(o, r, rows[|rows| - 1])
  {
  }
}
