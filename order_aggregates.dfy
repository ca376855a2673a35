/** What the five metric queries of customer_metrics compute, as functions over the order
    lines of the warehouse: group the customer's lines, count or sum, and pick the
    largest. Where the SQL leaves a choice open (which of several tied products
    ROW_NUMBER() ranks first, in which order the favorite-month join returns its rows)
    the answer is a predicate that every allowed result satisfies, and a function gives
    one result that satisfies it. */
module OrderAggregates {
  import opened Wrappers
  import opened SqlResults

  /** One row of subs_fact_orderline joined with the product, store and date rows it
      refers to (the queries use inner joins, so only lines that have them take part). */
  datatype OrderLine = OrderLine(
    customerKey: int,
    productName: string,
    breadType: Option<string>,
    length: Option<int>,
    city: string,
    month: int)

  /** Unquoted identifiers come back upper-cased; these are the SELECT lists. */
  const SandwichColumns: seq<string> := ["CUSTOMER_KEY", "SANDWICH", "SANDWICH_COUNT"]
  const SideColumns: seq<string> := ["CUSTOMER_KEY", "SIDE", "SIDE_COUNT"]
  const InchesColumns: seq<string> := ["CUSTOMER_KEY", "INCHES_OF_SANDWICH"]
  const StoreColumns: seq<string> := ["CUSTOMER_KEY", "CITY", "MOST_VISITED_COUNT"]
  const MonthColumns: seq<string> := ["CUSTOMER_KEY", "MONTH", "NUMOFVISITS"]

  predicate Distinct<T(==)>(s: seq<T>) {
    forall i, j :: 0 <= i < j < |s| ==> s[i] != s[j]
  }

  /** The element of keys with the largest score; ties go to the earliest. */
  function ArgMax<K>(keys: seq<K>, score: K -> nat): (best: K)
    requires keys != []
    ensures best in keys
    ensures forall k :: k in keys ==> score(k) <= score(best)
  {
    if |keys| == 1 then keys[0]
    else
      var rest := ArgMax(keys[1..], score);
      if score(keys[0]) >= score(rest) then keys[0] else rest
  }

  // ---------------------------------------------------------------------------
  // Favorite sandwich and favorite side

  /** A line of customer c whose product is a sandwich (breadtype IS NOT NULL) or,
      when sandwich is false, a side (breadtype IS NULL). */
  predicate Selects(l: OrderLine, c: int, sandwich: bool) {
    l.customerKey == c && l.breadType.Some? == sandwich
  }

  /** COUNT(*) of the group (c, name) among the selected lines. */
  function ProductCount(lines: seq<OrderLine>, c: int, sandwich: bool, name: string): nat {
    if lines == [] then 0
    else
      (if Selects(lines[0], c, sandwich) && lines[0].productName == name then 1 else 0)
      + ProductCount(lines[1..], c, sandwich, name)
  }

  /** The product names of the selected lines, in order (a name once per line). */
  function ProductNames(lines: seq<OrderLine>, c: int, sandwich: bool): (names: seq<string>)
    ensures forall n :: n in names <==> ProductCount(lines, c, sandwich, n) > 0
    ensures names == [] <==> forall l :: l in lines ==> !Selects(l, c, sandwich)
  {
    if lines == [] then []
    else
      var rest := ProductNames(lines[1..], c, sandwich);
      assert forall l :: l in lines <==> l == lines[0] || l in lines[1..];
      if Selects(lines[0], c, sandwich) then [lines[0].productName] + rest else rest
  }

  /** The name behind ROW_NUMBER() = 1: a product with the largest count, if the
      customer ordered any product of the kind. */
  function FavoriteProduct(lines: seq<OrderLine>, c: int, sandwich: bool): (fav: Option<string>)
    ensures fav.None? <==> forall l :: l in lines ==> !Selects(l, c, sandwich)
    ensures fav.Some? ==> ProductCount(lines, c, sandwich, fav.value) > 0
    ensures fav.Some? ==> forall n :: ProductCount(lines, c, sandwich, n) <= ProductCount(lines, c, sandwich, fav.value)
  {
    var names := ProductNames(lines, c, sandwich);
    if names == [] then None
    else Some(ArgMax(names, n => ProductCount(lines, c, sandwich, n)))
  }

  /** A row (customer_key, product, count) that the ranked query may return: the count is
      the product's own and no product of the kind has a larger one. */
  ghost predicate IsFavoriteProductRow(lines: seq<OrderLine>, c: int, sandwich: bool, row: Row) {
    && |row| == 3
    && row[0] == SqlInt(c)
    && row[1].SqlText?
    && row[2] == SqlInt(ProductCount(lines, c, sandwich, row[1].s))
    && forall n :: ProductCount(lines, c, sandwich, n) <= ProductCount(lines, c, sandwich, row[1].s)
  }

  /** The allowed results of the favorite-sandwich (favorite-side) query: no row when the
      customer has no such line, otherwise exactly one row of a most-ordered product. */
  ghost predicate IsFavoriteProductAnswer(lines: seq<OrderLine>, c: int, sandwich: bool, rows: seq<Row>) {
    && (rows == [] <==> forall l :: l in lines ==> !Selects(l, c, sandwich))
    && (rows != [] ==> |rows| == 1 && IsFavoriteProductRow(lines, c, sandwich, rows[0]))
  }

  /** One allowed result: ties resolved towards the product ordered first. */
  function FavoriteProductRows(lines: seq<OrderLine>, c: int, sandwich: bool): (rows: seq<Row>)
    ensures IsFavoriteProductAnswer(lines, c, sandwich, rows)
  {
    match FavoriteProduct(lines, c, sandwich)
    case None => []
    case Some(n) => [[SqlInt(c), SqlText(n), SqlInt(ProductCount(lines, c, sandwich, n))]]
  }

  /** The count in a favorite row is positive: the product was ordered. */
  lemma FavoriteRowCountPositive(lines: seq<OrderLine>, c: int, sandwich: bool, rows: seq<Row>)
    requires IsFavoriteProductAnswer(lines, c, sandwich, rows) && rows != []
    ensures rows[0][2].SqlInt? && rows[0][2].i > 0
  {
    var fav := FavoriteProduct(lines, c, sandwich);
    assert ProductCount(lines, c, sandwich, fav.value) <= ProductCount(lines, c, sandwich, rows[0][1].s);
  }

  /** Any two allowed results agree on the count: they differ at most in which of the
      tied products they name. */
  lemma FavoriteUpToTies(lines: seq<OrderLine>, c: int, sandwich: bool, rows1: seq<Row>, rows2: seq<Row>)
    requires IsFavoriteProductAnswer(lines, c, sandwich, rows1)
    requires IsFavoriteProductAnswer(lines, c, sandwich, rows2)
    ensures |rows1| == |rows2|
    ensures rows1 != [] ==> rows1[0][2] == rows2[0][2]
  {
    if rows1 != [] {
      var n1, n2 := rows1[0][1].s, rows2[0][1].s;
      assert ProductCount(lines, c, sandwich, n1) <= ProductCount(lines, c, sandwich, n2);
      assert ProductCount(lines, c, sandwich, n2) <= ProductCount(lines, c, sandwich, n1);
    }
  }

  // ---------------------------------------------------------------------------
  // Inches of sandwich

  /** SQL addition inside SUM: NULL contributes nothing, and the sum of no values is NULL. */
  function AddNullable(a: Option<int>, b: Option<int>): Option<int> {
    if a.None? then b else if b.None? then a else Some(a.value + b.value)
  }

  /** SUM(p.length) over every line of customer c (sandwiches and sides alike). */
  function SumLengths(lines: seq<OrderLine>, c: int): Option<int> {
    if lines == [] then None
    else AddNullable(if lines[0].customerKey == c then lines[0].length else None, SumLengths(lines[1..], c))
  }

  /** The sum does not depend on how the lines are split. */
  lemma {:induction false} SumLengthsAppend(a: seq<OrderLine>, b: seq<OrderLine>, c: int)
    ensures SumLengths(a + b, c) == AddNullable(SumLengths(a, c), SumLengths(b, c))
  {
    if a == [] {
      assert a + b == b;
    } else {
      assert (a + b)[0] == a[0] && (a + b)[1..] == a[1..] + b;
      SumLengthsAppend(a[1..], b, c);
      var head := if a[0].customerKey == c then a[0].length else None;
      assert AddNullable(head, AddNullable(SumLengths(a[1..], c), SumLengths(b, c)))
          == AddNullable(AddNullable(head, SumLengths(a[1..], c)), SumLengths(b, c));
    }
  }

  /** The sum is NULL exactly when none of the customer's lines has a length. */
  lemma {:induction false} SumLengthsNull(lines: seq<OrderLine>, c: int)
    ensures SumLengths(lines, c).None? <==> forall l :: l in lines && l.customerKey == c ==> l.length.None?
  {
    if lines != [] {
      SumLengthsNull(lines[1..], c);
      assert forall l :: l in lines <==> l == lines[0] || l in lines[1..];
    }
  }

  /** The one group of customer c survives HAVING SUM(p.length) > 0 only with a positive sum. */
  function InchesRows(lines: seq<OrderLine>, c: int): (rows: seq<Row>)
    ensures |rows| <= 1
    ensures rows == [] <==> !(SumLengths(lines, c).Some? && SumLengths(lines, c).value > 0)
    ensures rows != [] ==> rows[0] == [SqlInt(c), SqlInt(SumLengths(lines, c).value)]
  {
    var total := SumLengths(lines, c);
    if total.Some? && total.value > 0 then [[SqlInt(c), SqlInt(total.value)]] else []
  }

  // ---------------------------------------------------------------------------
  // Favorite month

  /** COUNT(*) of the group (c, month): the customer's order lines in that month. */
  function MonthVisits(lines: seq<OrderLine>, c: int, m: int): nat {
    if lines == [] then 0
    else (if lines[0].customerKey == c && lines[0].month == m then 1 else 0) + MonthVisits(lines[1..], c, m)
  }

  /** The months in which customer c has order lines, each once. */
  function VisitedMonths(lines: seq<OrderLine>, c: int): (ms: seq<int>)
    ensures Distinct(ms)
    ensures forall m :: m in ms <==> MonthVisits(lines, c, m) > 0
  {
    if lines == [] then []
    else
      var rest := VisitedMonths(lines[1..], c);
      if lines[0].customerKey == c && lines[0].month !in rest then [lines[0].month] + rest else rest
  }

  /** MAX(numofvisits) over the customer's months; 0 when the customer has no lines. */
  function MaxVisits(lines: seq<OrderLine>, c: int): (mx: nat)
    ensures forall m :: MonthVisits(lines, c, m) <= mx
    ensures mx > 0 <==> VisitedMonths(lines, c) != []
    ensures mx > 0 ==> MonthVisits(lines, c, ArgMax(VisitedMonths(lines, c), m => MonthVisits(lines, c, m))) == mx
  {
    var ms := VisitedMonths(lines, c);
    if ms == [] then 0 else MonthVisits(lines, c, ArgMax(ms, m => MonthVisits(lines, c, m)))
  }

  /** The months whose visit count reaches the maximum. */
  function BusiestMonths(ms: seq<int>, lines: seq<OrderLine>, c: int): (r: seq<int>)
    requires Distinct(ms)
    ensures Distinct(r)
    ensures forall m :: m in r <==> m in ms && MonthVisits(lines, c, m) == MaxVisits(lines, c)
  {
    if ms == [] then []
    else
      var rest := BusiestMonths(ms[1..], lines, c);
      if MonthVisits(lines, c, ms[0]) == MaxVisits(lines, c) then [ms[0]] + rest else rest
  }

  predicate IsFavoriteMonthRow(lines: seq<OrderLine>, c: int, row: Row) {
    && |row| == 3
    && row[0] == SqlInt(c)
    && row[1].SqlInt?
    && MonthVisits(lines, c, row[1].i) > 0
    && row[2] == SqlInt(MonthVisits(lines, c, row[1].i))
    && MonthVisits(lines, c, row[1].i) == MaxVisits(lines, c)
  }

  /** The allowed results of the favorite-month join, in any order: one row for each
      month with the customer's largest visit count, and no other row. */
  ghost predicate IsFavoriteMonthAnswer(lines: seq<OrderLine>, c: int, rows: seq<Row>) {
    && (forall i :: 0 <= i < |rows| ==> IsFavoriteMonthRow(lines, c, rows[i]))
    && (forall i, j :: 0 <= i < j < |rows| ==> rows[i] != rows[j])
    && (forall m :: MonthVisits(lines, c, m) > 0 && MonthVisits(lines, c, m) == MaxVisits(lines, c) ==>
          exists i :: 0 <= i < |rows| && rows[i][1] == SqlInt(m))
  }

  /** One allowed result. */
  function FavoriteMonthRows(lines: seq<OrderLine>, c: int): (rows: seq<Row>)
    ensures IsFavoriteMonthAnswer(lines, c, rows)
  {
    var ms := BusiestMonths(VisitedMonths(lines, c), lines, c);
    var mx := MaxVisits(lines, c);
    var rows := seq(|ms|, i requires 0 <= i < |ms| => [SqlInt(c), SqlInt(ms[i]), SqlInt(mx)]);
    assert forall m :: m in ms ==> exists i :: 0 <= i < |ms| && ms[i] == m && rows[i][1] == SqlInt(m);
    rows
  }

  /** The favorite-month query returns a row exactly when the customer has order lines. */
  lemma FavoriteMonthNonEmpty(lines: seq<OrderLine>, c: int, rows: seq<Row>)
    requires IsFavoriteMonthAnswer(lines, c, rows)
    ensures rows == [] <==> VisitedMonths(lines, c) == []
  {
    if VisitedMonths(lines, c) != [] {
      var best := ArgMax(VisitedMonths(lines, c), m => MonthVisits(lines, c, m));
      assert MonthVisits(lines, c, best) > 0 && MonthVisits(lines, c, best) == MaxVisits(lines, c);
      assert exists i :: 0 <= i < |rows| && rows[i][1] == SqlInt(best);
    }
    assert rows != [] ==> IsFavoriteMonthRow(lines, c, rows[0]) && rows[0][1].i in VisitedMonths(lines, c);
  }
}
