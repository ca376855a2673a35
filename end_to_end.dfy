/** The views against the backend: what a view shows, stated on the warehouse's order
    lines, and the sign-in flow from the login form to the dashboard. */
module EndToEnd {
  import opened Wrappers
  import opened Numerals
  import opened JsValues
  import opened SqlResults
  import opened OrderAggregates
  import opened Backend
  import opened Browser
  import opened Api
  import opened CustomerSelect
  import Login
  import CustomerDashboard

  /** A nested property of the metrics body is the cell of that metric's record, and
      undefined when the metric is missing or None. */
  lemma MetricField(db: Database, key: string, name: string, field: string)
    requires key != ""
    ensures Serve(db, CustomerMetricsRequest(key)).Ok?
    ensures var m := CollectMetrics(key, db);
      Nested(Serve(db, CustomerMetricsRequest(key)).data, name, field) ==
        (if name in m && m[name].Some? && field in m[name].value then CellToJs(m[name].value[field]) else Undefined)
  {
    var m := CollectMetrics(key, db);
    var body := BodyToJs(MetricsBody(m));
    assert Serve(db, CustomerMetricsRequest(key)) == Ok(body);
    if name in m && m[name].Some? {
      assert Prop(body, name) == RecordToJs(m[name].value);
    }
  }

  /** What the favorite-product fields of a metrics body hold for the customer's lines. */
  ghost predicate ProductFieldsFor(metrics: JsValue, lines: seq<OrderLine>, c: int, sandwich: bool) {
    var metric := if sandwich then "favorite_sandwich" else "favorite_side";
    var cols := if sandwich then SandwichColumns else SideColumns;
    && ((forall l :: l in lines ==> !Selects(l, c, sandwich)) ==>
          Nested(metrics, metric, cols[1]) == Undefined && Nested(metrics, metric, cols[2]) == Undefined)
    && ((exists l :: l in lines && Selects(l, c, sandwich)) ==>
          exists name: string ::
            && ProductCount(lines, c, sandwich, name) > 0
            && (forall n :: ProductCount(lines, c, sandwich, n) <= ProductCount(lines, c, sandwich, name))
            && Nested(metrics, metric, cols[1]) == Str(name)
            && Nested(metrics, metric, cols[2]) == Num(ProductCount(lines, c, sandwich, name)))
  }

  /** The favorite-product fields of the metrics body for a faithful warehouse: missing
      when the customer ordered no product of the kind, and otherwise a most-ordered
      product with its count. */
  lemma FavoriteProductFields(db: Database, lines: seq<OrderLine>, c: int, sandwich: bool)
    requires FaithfulTo(db, lines)
    ensures ProductFieldsFor(Serve(db, CustomerMetricsRequest(IntToText(c))).data, lines, c, sandwich)
  {
    var key := IntToText(c);
    var metrics := Serve(db, CustomerMetricsRequest(key)).data;
    var metric := if sandwich then "favorite_sandwich" else "favorite_side";
    var cols := if sandwich then SandwichColumns else SideColumns;
    var m := CollectMetrics(key, db);
    FavoriteProductMetric(db, lines, c, sandwich);
    MetricField(db, key, metric, cols[1]);
    MetricField(db, key, metric, cols[2]);
    if m[metric].Some? {
      var name := m[metric].value[cols[1]].s;
      assert Nested(metrics, metric, cols[1]) == Str(name);
    }
  }

  /** What the sandwich card shows for the customer's order lines. */
  ghost predicate SandwichCardFor(card: Card, lines: seq<OrderLine>, c: int) {
    && ((forall l :: l in lines ==> !Selects(l, c, true)) ==>
          card.value == [Str("N/A")] && card.subtitle == Some([Str("Ordered 0 times")]))
    && ((exists l :: l in lines && Selects(l, c, true)) ==>
          exists name: string ::
            && ProductCount(lines, c, true, name) > 0
            && (forall n :: ProductCount(lines, c, true, n) <= ProductCount(lines, c, true, name))
            && card.value == [if name == "" then Str("N/A") else Str(name)]
            && card.subtitle == Some([Str("Ordered " + IntToText(ProductCount(lines, c, true, name)) + " times")]))
  }

  lemma SandwichCardOfFields(metrics: JsValue, lines: seq<OrderLine>, c: int)
    requires ProductFieldsFor(metrics, lines, c, true)
    ensures SandwichCardFor(CustomerDashboard.SandwichCard(metrics), lines, c)
  {
    assert SandwichColumns[1] == "SANDWICH" && SandwichColumns[2] == "SANDWICH_COUNT";
    if exists l :: l in lines && Selects(l, c, true) {
      var name: string :|
        && ProductCount(lines, c, true, name) > 0
        && (forall n :: ProductCount(lines, c, true, n) <= ProductCount(lines, c, true, name))
        && Nested(metrics, "favorite_sandwich", "SANDWICH") == Str(name)
        && Nested(metrics, "favorite_sandwich", "SANDWICH_COUNT") == Num(ProductCount(lines, c, true, name));
      CustomerDashboard.SandwichCardShows(metrics, name, ProductCount(lines, c, true, name));
    } else {
      CustomerDashboard.SandwichCardMissing(metrics);
    }
  }

  /** The dashboard's sandwich card for a faithful warehouse: 'N/A' and 0 when the
      customer ordered no sandwich, and otherwise a most-ordered sandwich with its count. */
  lemma DashboardSandwichCard(db: Database, lines: seq<OrderLine>, c: int)
    requires FaithfulTo(db, lines)
    ensures SandwichCardFor(CustomerDashboard.SandwichCard(Serve(db, CustomerMetricsRequest(IntToText(c))).data), lines, c)
  {
    var metrics := Serve(db, CustomerMetricsRequest(IntToText(c))).data;
    FavoriteProductFields(db, lines, c, true);
    SandwichCardOfFields(metrics, lines, c);
  }

  ghost predicate InchesFieldFor(field: JsValue, lines: seq<OrderLine>, c: int) {
    var total := SumLengths(lines, c);
    && (total.Some? && total.value > 0 ==> field == Num(total.value))
    && (!(total.Some? && total.value > 0) ==> field == Undefined)
  }

  /** The total-inches field of the metrics body for a faithful warehouse: the positive
      total of the customer's lengths, and missing otherwise. */
  lemma TotalInchesField(db: Database, lines: seq<OrderLine>, c: int)
    requires FaithfulTo(db, lines)
    ensures InchesFieldFor(Nested(Serve(db, CustomerMetricsRequest(IntToText(c))).data, "total_inches", "INCHES_OF_SANDWICH"), lines, c)
  {
    TotalInchesMetric(db, lines, c);
    MetricField(db, IntToText(c), "total_inches", "INCHES_OF_SANDWICH");
  }

  /** What the inches card shows for the customer's order lines: the positive total of
      the customer's lengths, or 0. */
  ghost predicate InchesCardFor(card: Card, lines: seq<OrderLine>, c: int) {
    var total := SumLengths(lines, c);
    && (total.Some? && total.value > 0 ==> card.value == [Str(IntToText(total.value) + " inches")])
    && (!(total.Some? && total.value > 0) ==> card.value == [Str("0 inches")])
  }

  lemma InchesCardOfField(metrics: JsValue, lines: seq<OrderLine>, c: int)
    requires InchesFieldFor(Nested(metrics, "total_inches", "INCHES_OF_SANDWICH"), lines, c)
    ensures InchesCardFor(CustomerDashboard.InchesCard(metrics), lines, c)
  {
    var total := SumLengths(lines, c);
    if total.Some? && total.value > 0 {
      CountTextOfNumber(total.value);
    } else {
      CountTextOfFalsy(Undefined);
      assert "0" + " inches" == "0 inches";
    }
  }

  /** The dashboard's inches card for a faithful warehouse. */
  lemma DashboardInchesCard(db: Database, lines: seq<OrderLine>, c: int)
    requires FaithfulTo(db, lines)
    ensures InchesCardFor(CustomerDashboard.InchesCard(Serve(db, CustomerMetricsRequest(IntToText(c))).data), lines, c)
  {
    TotalInchesField(db, lines, c);
    InchesCardOfField(Serve(db, CustomerMetricsRequest(IntToText(c))).data, lines, c);
  }

  /** What the favorite-month fields of a metrics body hold for the customer's lines:
      missing for a customer without orders, and otherwise a month the customer visited
      most often, with that number of visits. */
  ghost predicate MonthFieldsFor(metrics: JsValue, lines: seq<OrderLine>, c: int) {
    && (VisitedMonths(lines, c) == [] ==> Nested(metrics, "favorite_month", "MONTH") == Undefined)
    && (VisitedMonths(lines, c) != [] ==>
          exists month: int ::
            && MonthVisits(lines, c, month) > 0
            && (forall other :: MonthVisits(lines, c, other) <= MonthVisits(lines, c, month))
            && Nested(metrics, "favorite_month", "MONTH") == Num(month)
            && Nested(metrics, "favorite_month", "NUMOFVISITS") == Num(MonthVisits(lines, c, month)))
  }

  /** The favorite-month fields of the metrics body for a faithful warehouse. */
  lemma FavoriteMonthFields(db: Database, lines: seq<OrderLine>, c: int)
    requires FaithfulTo(db, lines)
    ensures MonthFieldsFor(Serve(db, CustomerMetricsRequest(IntToText(c))).data, lines, c)
  {
    var key := IntToText(c);
    var metrics := Serve(db, CustomerMetricsRequest(key)).data;
    var m := CollectMetrics(key, db);
    FavoriteMonthMetric(db, lines, c);
    MetricField(db, key, "favorite_month", "MONTH");
    MetricField(db, key, "favorite_month", "NUMOFVISITS");
    if m["favorite_month"].Some? {
      var month := m["favorite_month"].value["MONTH"].i;
      assert Nested(metrics, "favorite_month", "MONTH") == Num(month);
    }
  }

  /** What the month card shows for the customer's order lines: 'N/A' for a customer
      without orders, and otherwise the name of a month the customer visited most often,
      with that number of visits. */
  ghost predicate MonthCardFor(card: Card, lines: seq<OrderLine>, c: int) {
    && (VisitedMonths(lines, c) == [] ==> card.value == [Str("N/A")])
    && (VisitedMonths(lines, c) != [] ==>
          exists month: int ::
            && MonthVisits(lines, c, month) > 0
            && (forall other :: MonthVisits(lines, c, other) <= MonthVisits(lines, c, month))
            && card.value == [Str(CustomerDashboard.MonthName(Num(month)))]
            && card.subtitle == Some([Str("You visited " + IntToText(MonthVisits(lines, c, month)) + " times")]))
  }

  lemma MonthCardOfFields(metrics: JsValue, lines: seq<OrderLine>, c: int)
    requires MonthFieldsFor(metrics, lines, c)
    ensures MonthCardFor(CustomerDashboard.MonthCard(metrics), lines, c)
  {
    if VisitedMonths(lines, c) == [] {
      CustomerDashboard.MonthNameOfFalsy(Undefined);
    } else {
      var month: int :|
        && MonthVisits(lines, c, month) > 0
        && (forall other :: MonthVisits(lines, c, other) <= MonthVisits(lines, c, month))
        && Nested(metrics, "favorite_month", "MONTH") == Num(month)
        && Nested(metrics, "favorite_month", "NUMOFVISITS") == Num(MonthVisits(lines, c, month));
      CustomerDashboard.MonthCardOfNumber(metrics, month, MonthVisits(lines, c, month));
    }
  }

  /** The dashboard's month card for a faithful warehouse. */
  lemma DashboardMonthCard(db: Database, lines: seq<OrderLine>, c: int)
    requires FaithfulTo(db, lines)
    ensures MonthCardFor(CustomerDashboard.MonthCard(Serve(db, CustomerMetricsRequest(IntToText(c))).data), lines, c)
  {
    FavoriteMonthFields(db, lines, c);
    MonthCardOfFields(Serve(db, CustomerMetricsRequest(IntToText(c))).data, lines, c);
  }

  /** The login form's messages for the lookup's outcomes: a phone the warehouse does not
      know gives the not-found text, a failing query the generic one, and a found
      customer is stored (its record is an object, hence truthy). */
  lemma LoginOutcomes(db: Database, phone: string)
    requires phone != ""
    ensures var o := db(CustomerWithPhone(phone));
      var out := Serve(db, CustomerByPhoneRequest(phone));
      && (o.Fetched? && o.rows == [] ==> out.Failed? && Login.LookupErrorMessage(out.status) == Login.NotFoundMessage)
      && (o.Raised? ==> out.Failed? && Login.LookupErrorMessage(out.status) == Login.GenericMessage)
      && (o.Fetched? && o.rows != [] ==> out.Ok? && Truthy(out.data))
  {
    LookupOutcomes(db, phone);
  }

  /** The drop-down of both pickers for the customers endpoint: one option per customer
      row, in order, when the query ran; a failed request when it raised. */
  lemma PickerOptions(db: Database)
    ensures var o := db(AllCustomers);
      var out := Serve(db, CustomersRequest);
      && (o.Raised? ==> out == Failed(Some(HTTP_500_INTERNAL_SERVER_ERROR)))
      && (o.Fetched? ==>
            && out.Ok?
            && Or(Prop(out.data, "results"), Array([])) == Prop(out.data, "results")
            && var items := MenuItems(Prop(out.data, "results"));
            && items.Some? && |items.value| == |o.rows|
            && forall i :: 0 <= i < |o.rows| ==>
                 Some(items.value[i]) == MenuItemOf(RecordToJs(ZipRecord(ColumnNames(o.description), o.rows[i]))))
  {
    var o := db(AllCustomers);
    if o.Fetched? {
      var d := ExecuteQuery(o).data;
      var results := Prop(Serve(db, CustomersRequest).data, "results");
      assert results == Array(seq(|d.results|, i requires 0 <= i < |d.results| => RecordToJs(d.results[i])));
      assert forall i :: 0 <= i < |results.items| ==> results.items[i] == RecordToJs(d.results[i]);
    }
  }

  /** Signing in with a known phone and opening the dashboard: the record is stored, the
      view moves to '/metrics', the dashboard greets the customer by first name and asks
      for the metrics of the customer's key. */
  method SignInThenOpenDashboard(phone: string, storage: LocalStorage, nav: Navigator, http: HttpClient,
                                 key: int, firstName: string)
      returns (dashboard: CustomerDashboard.Dashboard)
    requires phone != ""
    requires http.server(CustomerByPhoneRequest(phone)).Ok?
    requires var record := http.server(CustomerByPhoneRequest(phone)).data;
      record.Object? && Prop(record, "CUSTOMER_KEY") == Num(key) && Prop(record, "CUSTOMERFNAME") == Str(firstName)
    modifies storage, nav, http
    ensures storage.items == old(storage.items)[CustomerDataKey := http.server(CustomerByPhoneRequest(phone)).data]
    ensures nav.visited == old(nav.visited) + ["/metrics"]
    ensures http.sent == old(http.sent) + [CustomerByPhoneRequest(phone), CustomerMetricsRequest(IntToText(key))]
    ensures ChildrenText(CustomerDashboard.Greeting(dashboard.customerData)) == Some("HEY " + firstName + "!")
    ensures !dashboard.loading
  {
    var login := new Login.LoginView();
    login.EditPhone(phone);
    login.SubmitForm(storage, nav, http);
    dashboard := new CustomerDashboard.Dashboard();
    var thrown := dashboard.Mount(storage, nav, http);
    CustomerDashboard.GreetingText(dashboard.customerData, firstName);
  }

  /** The example of a customer with key 42 named Sam. */
  method SignInAsSam(storage: LocalStorage, nav: Navigator, http: HttpClient)
      returns (dashboard: CustomerDashboard.Dashboard)
    requires http.server(CustomerByPhoneRequest("5551234567")) ==
      Ok(Object(map["CUSTOMER_KEY" := Num(42), "CUSTOMERFNAME" := Str("Sam")]))
    modifies storage, nav, http
    ensures http.sent == old(http.sent) + [CustomerByPhoneRequest("5551234567"), CustomerMetricsRequest("42")]
    ensures ChildrenText(CustomerDashboard.Greeting(dashboard.customerData)) == Some("HEY Sam!")
  {
    dashboard := SignInThenOpenDashboard("5551234567", storage, nav, http, 42, "Sam");
    assert IntToText(42) == "42";
    assert "HEY " + "Sam" + "!" == "HEY Sam!";
  }
}
