/** The endpoints of SnowflakeDataViewSet: get_customers, get_customer_by_phone and
    customer_metrics. The warehouse is a function from the query sent (with its bound
    parameter) to what running it did. */
module Backend {
  import opened Wrappers
  import opened Numerals
  import opened SqlResults
  import opened OrderAggregates

  datatype Query =
    | AllCustomers
    | CustomerWithPhone(phone: string)
    | FavoriteSandwichOf(customerKey: string)
    | FavoriteSideOf(customerKey: string)
    | SandwichInchesOf(customerKey: string)
    | MostVisitedStoreOf(customerKey: string)
    | FavoriteMonthOf(customerKey: string)

  type Database = Query -> DbOutcome

  /** The JSON bodies the endpoints answer with. */
  datatype Body =
    | ErrorBody(error: string)
    | RecordBody(record: Record)
    | DataBody(data: QueryData)
    | MetricsBody(metrics: map<string, Option<Record>>)

  datatype Response = Response(status: int, body: Body)

  const HTTP_200_OK: int := 200
  const HTTP_400_BAD_REQUEST: int := 400
  const HTTP_404_NOT_FOUND: int := 404
  const HTTP_500_INTERNAL_SERVER_ERROR: int := 500

  /** `not value` for a query parameter: absent (None) or the empty string. */
  predicate MissingParam(p: Option<string>) {
    p.None? || p.value == ""
  }

  /** get_customers: the whole query data, or 500 with the exception text. */
  function GetCustomers(db: Database): (r: Response)
    ensures db(AllCustomers).Raised? ==> r == Response(HTTP_500_INTERNAL_SERVER_ERROR, ErrorBody(db(AllCustomers).message))
    ensures db(AllCustomers).Fetched? ==> r.status == HTTP_200_OK && r.body.DataBody?
    ensures db(AllCustomers).Fetched? ==> r == Response(HTTP_200_OK, DataBody(ExecuteQuery(db(AllCustomers)).data))
    ensures db(AllCustomers).Fetched? ==> r.body.data.rowCount == |db(AllCustomers).rows| == |r.body.data.results|
  {
    var result := ExecuteQuery(db(AllCustomers));
    if result.Success? then Response(HTTP_200_OK, DataBody(result.data))
    else Response(HTTP_500_INTERNAL_SERVER_ERROR, ErrorBody(result.error))
  }

  /** get_customer_by_phone: 400 without a phone (and then no query runs), 500 when the
      query raised, 404 when it found no row, otherwise the first row found. */
  function GetCustomerByPhone(phone: Option<string>, db: Database): (r: Response)
    ensures MissingParam(phone) ==> r == Response(HTTP_400_BAD_REQUEST, ErrorBody("Phone number is required"))
    ensures !MissingParam(phone) && db(CustomerWithPhone(phone.value)).Raised? ==>
      r == Response(HTTP_500_INTERNAL_SERVER_ERROR, ErrorBody(db(CustomerWithPhone(phone.value)).message))
    ensures !MissingParam(phone) && db(CustomerWithPhone(phone.value)).Fetched? ==>
      var o := db(CustomerWithPhone(phone.value));
      if o.rows == [] then r == Response(HTTP_404_NOT_FOUND, ErrorBody("Customer not found"))
      else r == Response(HTTP_200_OK, RecordBody(ZipRecord(ColumnNames(o.description), o.rows[0])))
  {
    if MissingParam(phone) then Response(HTTP_400_BAD_REQUEST, ErrorBody("Phone number is required"))
    else
      var result := ExecuteQuery(db(CustomerWithPhone(phone.value)));
      if result.Success? then
        if result.data.results == [] then Response(HTTP_404_NOT_FOUND, ErrorBody("Customer not found"))
        else Response(HTTP_200_OK, RecordBody(result.data.results[0]))
      else Response(HTTP_500_INTERNAL_SERVER_ERROR, ErrorBody(result.error))
  }

  /** The five keys of the metrics dictionary, in the order their queries run. */
  const MetricNames: seq<string> :=
    ["favorite_sandwich", "favorite_side", "total_inches", "most_visited_store", "favorite_month"]

  function MetricQuery(name: string, key: string): (q: Query)
    requires name in MetricNames
  {
    if name == "favorite_sandwich" then FavoriteSandwichOf(key)
    else if name == "favorite_side" then FavoriteSideOf(key)
    else if name == "total_inches" then SandwichInchesOf(key)
    else if name == "most_visited_store" then MostVisitedStoreOf(key)
    else FavoriteMonthOf(key)
  }

  function MetricsResponse(customerKey: Option<string>, db: Database): Response {
    if MissingParam(customerKey) then Response(HTTP_400_BAD_REQUEST, ErrorBody("customer_key is required"))
    else Response(HTTP_200_OK, MetricsBody(CollectMetrics(customerKey.value, db)))
  }

  /** What the metrics dictionary holds, stated on the warehouse's answers: a metric is
      present exactly when its query did not raise, and then it is None when the query
      returned no row and the first row, keyed by column name, otherwise. */
  lemma CollectMetricsMeaning(key: string, db: Database, name: string)
    ensures name in CollectMetrics(key, db) ==> name in MetricNames
    ensures name in MetricNames ==>
      var o := db(MetricQuery(name, key));
      && (name in CollectMetrics(key, db) <==> o.Fetched?)
      && (o.Fetched? ==>
            CollectMetrics(key, db)[name] ==
              (if o.rows == [] then None else Some(ZipRecord(ColumnNames(o.description), o.rows[0]))))
  {
    var q := if name in MetricNames then MetricQuery(name, key) else FavoriteMonthOf(key);
    StoredResult(db(q));
  }

  /** What Put stores for an outcome of the warehouse. */
  lemma StoredResult(o: DbOutcome)
    ensures ExecuteQuery(o).Success? <==> o.Fetched?
    ensures o.Fetched? ==>
      FirstOrNone(ExecuteQuery(o).data) == (if o.rows == [] then None else Some(ZipRecord(ColumnNames(o.description), o.rows[0])))
  {
  }

  /** The dictionary as customer_metrics fills it: one conditional insertion per query. */
  function Put(m: map<string, Option<Record>>, name: string, result: QueryResult): map<string, Option<Record>> {
    if result.Success? then m[name := FirstOrNone(result.data)] else m
  }

  /** The metrics dictionary: a key for every query that succeeded, holding its first
      formatted row or None. */
  function CollectMetrics(key: string, db: Database): map<string, Option<Record>> {
    Put(Put(Put(Put(Put(map[],
      "favorite_sandwich", ExecuteQuery(db(FavoriteSandwichOf(key)))),
      "favorite_side", ExecuteQuery(db(FavoriteSideOf(key)))),
      "total_inches", ExecuteQuery(db(SandwichInchesOf(key)))),
      "most_visited_store", ExecuteQuery(db(MostVisitedStoreOf(key)))),
      "favorite_month", ExecuteQuery(db(FavoriteMonthOf(key))))
  }

  /** customer_metrics, filling the dictionary key by key: with no customer_key it answers
      400 and runs no query; otherwise it runs the five queries in order. */
  method CustomerMetrics(customerKey: Option<string>, db: Database) returns (resp: Response, issued: seq<Query>)
    ensures resp == MetricsResponse(customerKey, db)
    ensures MissingParam(customerKey) ==> issued == []
    ensures !MissingParam(customerKey) ==>
      issued == seq(|MetricNames|, i requires 0 <= i < |MetricNames| => MetricQuery(MetricNames[i], customerKey.value))
  {
    if MissingParam(customerKey) {
      return Response(HTTP_400_BAD_REQUEST, ErrorBody("customer_key is required")), [];
    }
    var key := customerKey.value;
    var metrics: map<string, Option<Record>> := map[];

    var sandwichResult := ExecuteQuery(db(FavoriteSandwichOf(key)));
    if sandwichResult.Success? {
      metrics := metrics["favorite_sandwich" := FirstOrNone(sandwichResult.data)];
    }
    ghost var afterSandwich := metrics;
    assert afterSandwich == Put(map[], "favorite_sandwich", sandwichResult);
    var sideResult := ExecuteQuery(db(FavoriteSideOf(key)));
    if sideResult.Success? {
      metrics := metrics["favorite_side" := FirstOrNone(sideResult.data)];
    }
    ghost var afterSide := metrics;
    assert afterSide == Put(afterSandwich, "favorite_side", sideResult);
    var inchesResult := ExecuteQuery(db(SandwichInchesOf(key)));
    if inchesResult.Success? {
      metrics := metrics["total_inches" := FirstOrNone(inchesResult.data)];
    }
    ghost var afterInches := metrics;
    assert afterInches == Put(afterSide, "total_inches", inchesResult);
    var storeResult := ExecuteQuery(db(MostVisitedStoreOf(key)));
    if storeResult.Success? {
      metrics := metrics["most_visited_store" := FirstOrNone(storeResult.data)];
    }
    ghost var afterStore := metrics;
    assert afterStore == Put(afterInches, "most_visited_store", storeResult);
    var monthResult := ExecuteQuery(db(FavoriteMonthOf(key)));
    if monthResult.Success? {
      metrics := metrics["favorite_month" := FirstOrNone(monthResult.data)];
    }
    assert metrics == Put(afterStore, "favorite_month", monthResult);
    issued := [FavoriteSandwichOf(key), FavoriteSideOf(key), SandwichInchesOf(key), MostVisitedStoreOf(key), FavoriteMonthOf(key)];
    assert metrics == CollectMetrics(key, db);
    resp := Response(HTTP_200_OK, MetricsBody(metrics));
  }

  // ---------------------------------------------------------------------------
  // A warehouse whose answers are those of the order lines

  ghost predicate AnswersFavoriteProduct(o: DbOutcome, lines: seq<OrderLine>, c: int, sandwich: bool) {
    && o.Fetched?
    && o.description == Some(if sandwich then SandwichColumns else SideColumns)
    && IsFavoriteProductAnswer(lines, c, sandwich, o.rows)
  }

  ghost predicate AnswersFavoriteMonth(o: DbOutcome, lines: seq<OrderLine>, c: int) {
    && o.Fetched?
    && o.description == Some(MonthColumns)
    && IsFavoriteMonthAnswer(lines, c, o.rows)
  }

  /** Every metric query for the decimal text of a customer key answers as the aggregates
      over the order lines say (the most-visited-store query is left unconstrained). */
  ghost predicate FaithfulTo(db: Database, lines: seq<OrderLine>) {
    forall c: int :: FaithfulFor(db, lines, c)
  }

  ghost predicate FaithfulFor(db: Database, lines: seq<OrderLine>, c: int) {
      && AnswersFavoriteProduct(db(FavoriteSandwichOf(IntToText(c))), lines, c, true)
      && AnswersFavoriteProduct(db(FavoriteSideOf(IntToText(c))), lines, c, false)
      && db(SandwichInchesOf(IntToText(c))) == Fetched(InchesRows(lines, c), Some(InchesColumns))
      && AnswersFavoriteMonth(db(FavoriteMonthOf(IntToText(c))), lines, c)
  }

  /** The warehouse that answers with the deterministic results. */
  function WitnessAnswer(lines: seq<OrderLine>, q: Query): DbOutcome {
    match q
    case FavoriteSandwichOf(k) => Fetched(FavoriteProductRows(lines, KeyOf(k), true), Some(SandwichColumns))
    case FavoriteSideOf(k) => Fetched(FavoriteProductRows(lines, KeyOf(k), false), Some(SideColumns))
    case SandwichInchesOf(k) => Fetched(InchesRows(lines, KeyOf(k)), Some(InchesColumns))
    case FavoriteMonthOf(k) => Fetched(FavoriteMonthRows(lines, KeyOf(k)), Some(MonthColumns))
    case _ => Fetched([], None)
  }

  /** A faithful warehouse exists for any order lines. */
  lemma FaithfulWarehouseExists(lines: seq<OrderLine>)
    ensures exists db: Database :: FaithfulTo(db, lines)
  {
    var db: Database := q => WitnessAnswer(lines, q);
    forall c: int ensures FaithfulFor(db, lines, c) {
      WitnessFaithfulFor(db, lines, c);
    }
    assert FaithfulTo(db, lines);
  }

  lemma WitnessFaithfulFor(db: Database, lines: seq<OrderLine>, c: int)
    requires forall q :: db(q) == WitnessAnswer(lines, q)
    ensures FaithfulFor(db, lines, c)
  {
    var k := IntToText(c);
    assert db(FavoriteSandwichOf(k)) == WitnessAnswer(lines, FavoriteSandwichOf(k));
    assert db(FavoriteSideOf(k)) == WitnessAnswer(lines, FavoriteSideOf(k));
    assert db(SandwichInchesOf(k)) == WitnessAnswer(lines, SandwichInchesOf(k));
    assert db(FavoriteMonthOf(k)) == WitnessAnswer(lines, FavoriteMonthOf(k));
    WitnessProductAnswer(lines, c, true);
    WitnessProductAnswer(lines, c, false);
    WitnessMonthAnswer(lines, c);
    ParseDecimalText(c);
  }

  lemma WitnessProductAnswer(lines: seq<OrderLine>, c: int, sandwich: bool)
    ensures var k := IntToText(c);
      AnswersFavoriteProduct(WitnessAnswer(lines, if sandwich then FavoriteSandwichOf(k) else FavoriteSideOf(k)), lines, c, sandwich)
  {
    ParseDecimalText(c);
  }

  lemma WitnessMonthAnswer(lines: seq<OrderLine>, c: int)
    ensures AnswersFavoriteMonth(WitnessAnswer(lines, FavoriteMonthOf(IntToText(c))), lines, c)
  {
    ParseDecimalText(c);
  }

  /** The integer whose decimal text k is (0 for any other text). */
  function KeyOf(k: string): int {
    if k != [] && k[0] == '-' && AllDigitsIn(k[1..], 10) then -(ValueIn(k[1..], 10) as int)
    else if AllDigitsIn(k, 10) then ValueIn(k, 10)
    else 0
  }

  lemma ParseDecimalText(c: int)
    ensures KeyOf(IntToText(c)) == c
  {
    var t := IntToText(c);
    if c < 0 {
      assert t[1..] == NatToText(-c);
    } else {
      assert IsDigitIn(t[0], 10);
    }
  }

  /** The favorite sandwich (side) metric of a faithful warehouse: None exactly when the
      customer ordered no sandwich (side); otherwise a product name with its count, which
      is positive and no smaller than the count of any other product of the kind. */
  lemma FavoriteProductMetric(db: Database, lines: seq<OrderLine>, c: int, sandwich: bool)
    requires FaithfulTo(db, lines)
    ensures var name := if sandwich then "favorite_sandwich" else "favorite_side";
      var cols := if sandwich then SandwichColumns else SideColumns;
      var m := CollectMetrics(IntToText(c), db);
      && name in m
      && (m[name].None? <==> forall l :: l in lines ==> !Selects(l, c, sandwich))
      && (m[name].Some? ==>
            var r := m[name].value;
            && cols[1] in r && cols[2] in r && r[cols[1]].SqlText? && r[cols[2]].SqlInt?
            && r[cols[2]].i == ProductCount(lines, c, sandwich, r[cols[1]].s) > 0
            && forall n :: ProductCount(lines, c, sandwich, n) <= r[cols[2]].i)
  {
    var name := if sandwich then "favorite_sandwich" else "favorite_side";
    var cols := if sandwich then SandwichColumns else SideColumns;
    var o := db(MetricQuery(name, IntToText(c)));
    assert FaithfulFor(db, lines, c);
    assert AnswersFavoriteProduct(o, lines, c, sandwich);
    CollectMetricsMeaning(IntToText(c), db, name);
    if o.rows != [] {
      FavoriteRowCountPositive(lines, c, sandwich, o.rows);
      ThreeColumnRecord(cols, o.rows[0]);
    }
  }

  /** The total-inches metric of a faithful warehouse: None unless the summed length of
      the customer's lines is positive, and then that sum. */
  lemma TotalInchesMetric(db: Database, lines: seq<OrderLine>, c: int)
    requires FaithfulTo(db, lines)
    ensures var m := CollectMetrics(IntToText(c), db);
      && "total_inches" in m
      && (m["total_inches"].None? <==> !(SumLengths(lines, c).Some? && SumLengths(lines, c).value > 0))
      && (m["total_inches"].Some? ==>
            "INCHES_OF_SANDWICH" in m["total_inches"].value
            && m["total_inches"].value["INCHES_OF_SANDWICH"] == SqlInt(SumLengths(lines, c).value))
  {
    var o := db(SandwichInchesOf(IntToText(c)));
    FaithfulInches(db, lines, c);
    CollectMetricsMeaning(IntToText(c), db, "total_inches");
    if o.rows != [] {
      ZipRecordDistinct(InchesColumns, o.rows[0], 1);
    }
  }

  /** A faithful warehouse answers the inches query with the grouped sum. */
  lemma FaithfulInches(db: Database, lines: seq<OrderLine>, c: int)
    requires FaithfulTo(db, lines)
    ensures db(SandwichInchesOf(IntToText(c))) == Fetched(InchesRows(lines, c), Some(InchesColumns))
  {
    assert FaithfulFor(db, lines, c);
  }

  /** The favorite-month metric of a faithful warehouse: None exactly when the customer
      has no order line; otherwise a month the customer visited as often as any other. */
  lemma FavoriteMonthMetric(db: Database, lines: seq<OrderLine>, c: int)
    requires FaithfulTo(db, lines)
    ensures var m := CollectMetrics(IntToText(c), db);
      && "favorite_month" in m
      && (m["favorite_month"].None? <==> VisitedMonths(lines, c) == [])
      && (m["favorite_month"].Some? ==>
            var r := m["favorite_month"].value;
            && "MONTH" in r && "NUMOFVISITS" in r && r["MONTH"].SqlInt?
            && r["NUMOFVISITS"] == SqlInt(MonthVisits(lines, c, r["MONTH"].i))
            && MonthVisits(lines, c, r["MONTH"].i) > 0
            && forall month :: MonthVisits(lines, c, month) <= MonthVisits(lines, c, r["MONTH"].i))
  {
    var o := db(FavoriteMonthOf(IntToText(c)));
    assert FaithfulFor(db, lines, c);
    assert AnswersFavoriteMonth(o, lines, c);
    CollectMetricsMeaning(IntToText(c), db, "favorite_month");
    FavoriteMonthNonEmpty(lines, c, o.rows);
    if o.rows != [] {
      assert IsFavoriteMonthRow(lines, c, o.rows[0]);
      ThreeColumnRecord(MonthColumns, o.rows[0]);
    }
  }
}
