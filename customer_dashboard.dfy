/** The dashboard view (CustomerDashboard): on mount it reads the stored customer record,
    redirects to the login route when there is none and otherwise fetches that customer's
    metrics once; it renders a spinner, an error alert or the five metric cards. */
module CustomerDashboard {
  import opened Wrappers
  import opened Numerals
  import opened JsValues
  import opened Browser

  const MonthNames: seq<string> := [
    "January", "February", "March", "April", "May", "June",
    "July", "August", "September", "October", "November", "December"]

  /** The name of a parsed month number: an index outside the table gives `undefined`,
      which `|| 'N/A'` replaces. */
  function MonthOfNumber(p: Option<int>): (name: string)
    ensures name != ""
  {
    if p.Some? && 1 <= p.value <= 12 then MonthNames[p.value - 1] else "N/A"
  }

  /** Every parsed month number names a month of the table, or gives 'N/A'. */
  lemma MonthOfNumberInTable(p: Option<int>)
    ensures MonthOfNumber(p) == "N/A" || MonthOfNumber(p) in MonthNames
    ensures p.Some? && 1 <= p.value <= 12 ==> MonthOfNumber(p) == MonthNames[p.value - 1]
  {
  }

  /** getMonthName: `months[parseInt(monthNumber) - 1] || 'N/A'`. */
  function MonthName(monthNumber: JsValue): (name: string)
    ensures name != ""
  {
    MonthOfNumber(ParseInt(ToText(monthNumber)))
  }

  /** getMonthName always gives a month of the table or 'N/A'. */
  lemma MonthNameInTable(v: JsValue)
    ensures MonthName(v) == "N/A" || MonthName(v) in MonthNames
  {
    MonthOfNumberInTable(ParseInt(ToText(v)));
  }

  /** A month number gives its name for 1 to 12 and 'N/A' for any other integer. */
  lemma MonthNameOfNumber(n: int)
    ensures MonthName(Num(n)) == (if 1 <= n <= 12 then MonthNames[n - 1] else "N/A")
  {
    ParseIntOfDecimal(n);
    assert ToText(Num(n)) == IntToText(n);
    assert MonthName(Num(n)) == MonthOfNumber(Some(n));
  }

  /** The decimal text of a month number gives the same name as the number. */
  lemma MonthNameOfNumberText(n: int)
    ensures MonthName(Str(IntToText(n))) == MonthName(Num(n))
  {
    ParseIntOfDecimal(n);
    assert ToText(Num(n)) == IntToText(n);
    assert ToText(Str(IntToText(n))) == IntToText(n);
    assert MonthName(Num(n)) == MonthOfNumber(Some(n));
    assert MonthName(Str(IntToText(n))) == MonthOfNumber(Some(n));
  }

  /** A falsy month (missing, null, false, 0 or "") has no name. */
  lemma MonthNameOfFalsy(v: JsValue)
    requires !Truthy(v)
    ensures MonthName(v) == "N/A"
  {
    var p := ParseInt(ToText(v));
    ParseIntOfFalsy(v);
    MonthOfNoNumber(p);
  }

  /** NaN and 0 are outside the table. */
  lemma MonthOfNoNumber(p: Option<int>)
    requires p == None || p == Some(0)
    ensures MonthOfNumber(p) == "N/A"
  {
  }


  /** Month 3 is the third name of the table, March. */
  lemma MonthNameOfMarch(v: JsValue)
    requires v == Num(3)
    ensures MonthName(v) == MonthNames[2]
  {
    MonthNameOfNumber(v.n);
  }

  lemma MonthNameOfThirteen(v: JsValue)
    requires v == Num(13)
    ensures MonthName(v) == "N/A"
  {
    MonthNameOfNumber(v.n);
  }

  /** Text that is not a number has no name. */
  lemma MonthNameOfWord(v: JsValue)
    requires v == Str("abc")
    ensures MonthName(v) == "N/A"
  {
    ParseIntOfNonDigit(v.s);
  }

  /** `HEY {customerData?.CUSTOMERFNAME}!`: the children of the greeting heading. */
  function Greeting(customer: JsValue): seq<JsValue> {
    [Str("HEY "), Prop(customer, "CUSTOMERFNAME"), Str("!")]
  }

  lemma GreetingText(customer: JsValue, name: string)
    requires Prop(customer, "CUSTOMERFNAME") == Str(name)
    ensures ChildrenText(Greeting(customer)) == Some("HEY " + name + "!")
  {
    ChildrenTextOfThree(Str("HEY "), Prop(customer, "CUSTOMERFNAME"), Str("!"));
  }

  /** The five cards of the dashboard, in order. */
  function DashboardCards(metrics: JsValue): (cards: seq<Card>)
    ensures |cards| == 5
  {
    [SandwichCard(metrics), SideCard(metrics), InchesCard(metrics), StoreCard(metrics), MonthCard(metrics)]
  }

  /** The sandwich card: the name or 'N/A', and "Ordered n times" with 0 for a missing count. */
  function SandwichCard(metrics: JsValue): (c: Card)
    ensures var name := Nested(metrics, "favorite_sandwich", "SANDWICH");
      c.value == [if Truthy(name) then name else Str("N/A")]
    ensures c.subtitle == Some([Str("Ordered " + CountText(Nested(metrics, "favorite_sandwich", "SANDWICH_COUNT")) + " times")])
  {
    MetricCard("Favorite Sandwich",
      Or(Nested(metrics, "favorite_sandwich", "SANDWICH"), Str("N/A")),
      Str("Ordered " + CountText(Nested(metrics, "favorite_sandwich", "SANDWICH_COUNT")) + " times"))
  }

  function SideCard(metrics: JsValue): (c: Card)
    ensures var name := Nested(metrics, "favorite_side", "SIDE");
      c.value == [if Truthy(name) then name else Str("N/A")]
    ensures c.subtitle == Some([Str("Ordered " + CountText(Nested(metrics, "favorite_side", "SIDE_COUNT")) + " times")])
  {
    MetricCard("Favorite Side",
      Or(Nested(metrics, "favorite_side", "SIDE"), Str("N/A")),
      Str("Ordered " + CountText(Nested(metrics, "favorite_side", "SIDE_COUNT")) + " times"))
  }

  /** The inches card: "n inches", 0 for a missing total, and no subtitle. */
  function InchesCard(metrics: JsValue): (c: Card)
    ensures c.value == [Str(CountText(Nested(metrics, "total_inches", "INCHES_OF_SANDWICH")) + " inches")]
    ensures c.subtitle == None
  {
    MetricCard("Total Inches of Sandwich",
      Str(CountText(Nested(metrics, "total_inches", "INCHES_OF_SANDWICH")) + " inches"),
      Undefined)
  }

  function StoreCard(metrics: JsValue): (c: Card)
    ensures var city := Nested(metrics, "most_visited_store", "CITY");
      c.value == [if Truthy(city) then city else Str("N/A")]
    ensures c.subtitle == Some([Str("Your go-to spot with " + CountText(Nested(metrics, "most_visited_store", "MOST_VISITED_COUNT")) + " visits")])
  {
    MetricCard("Most Visited Store",
      Or(Nested(metrics, "most_visited_store", "CITY"), Str("N/A")),
      Str("Your go-to spot with " + CountText(Nested(metrics, "most_visited_store", "MOST_VISITED_COUNT")) + " visits"))
  }

  /** The month card shows the month's name (the `|| 'N/A'` around it never applies). */
  function MonthCard(metrics: JsValue): (c: Card)
    ensures c.value == [Str(MonthName(Nested(metrics, "favorite_month", "MONTH")))]
    ensures c.subtitle == Some([Str("You visited " + CountText(Nested(metrics, "favorite_month", "NUMOFVISITS")) + " times")])
  {
    var name := MonthName(Nested(metrics, "favorite_month", "MONTH"));
    assert Truthy(Str(name));
    MetricCard("Favorite Month",
      Or(Str(name), Str("N/A")),
      Str("You visited " + CountText(Nested(metrics, "favorite_month", "NUMOFVISITS")) + " times"))
  }

  /** The sandwich card for a metrics body that holds a sandwich name and its count. */
  lemma SandwichCardShows(metrics: JsValue, name: string, count: int)
    requires Nested(metrics, "favorite_sandwich", "SANDWICH") == Str(name)
    requires Nested(metrics, "favorite_sandwich", "SANDWICH_COUNT") == Num(count)
    ensures SandwichCard(metrics).value == [if name == "" then Str("N/A") else Str(name)]
    ensures SandwichCard(metrics).subtitle == Some([Str("Ordered " + IntToText(count) + " times")])
  {
    CountTextOfNumber(count);
  }

  /** A metrics body without a favorite sandwich shows 'N/A', ordered 0 times. */
  lemma SandwichCardMissing(metrics: JsValue)
    requires Nested(metrics, "favorite_sandwich", "SANDWICH") == Undefined
    requires Nested(metrics, "favorite_sandwich", "SANDWICH_COUNT") == Undefined
    ensures SandwichCard(metrics).value == [Str("N/A")]
    ensures SandwichCard(metrics).subtitle == Some([Str("Ordered 0 times")])
  {
    CountTextOfFalsy(Undefined);
    assert "Ordered " + "0" + " times" == "Ordered 0 times";
  }

  /** The month card for a metrics body that holds a month number and its visit count. */
  lemma MonthCardOfNumber(metrics: JsValue, month: int, visits: int)
    requires Nested(metrics, "favorite_month", "MONTH") == Num(month)
    requires Nested(metrics, "favorite_month", "NUMOFVISITS") == Num(visits)
    ensures MonthCard(metrics).value == [Str(MonthName(Num(month)))]
    ensures MonthCard(metrics).subtitle == Some([Str("You visited " + IntToText(visits) + " times")])
  {
    CountTextOfNumber(visits);
  }

  /** A missing (falsy) month is shown as 'N/A'. */
  lemma MonthCardMissing(metrics: JsValue)
    requires !Truthy(Nested(metrics, "favorite_month", "MONTH"))
    ensures MonthCard(metrics).value == [Str("N/A")]
  {
    MonthNameOfFalsy(Nested(metrics, "favorite_month", "MONTH"));
  }

  /** A month between 1 and 12 is shown by its name. */
  lemma MonthCardNamed(metrics: JsValue, n: int)
    requires Nested(metrics, "favorite_month", "MONTH") == Num(n) && 1 <= n <= 12
    ensures MonthCard(metrics).value == [Str(MonthNames[n - 1])]
  {
    MonthNameOfNumber(n);
  }

  /** Missing (falsy) counts, totals and visits read 0. */
  lemma DashboardDefaults(metrics: JsValue)
    ensures !Truthy(Nested(metrics, "favorite_sandwich", "SANDWICH_COUNT")) ==>
      SandwichCard(metrics).subtitle == Some([Str("Ordered 0 times")])
    ensures !Truthy(Nested(metrics, "favorite_side", "SIDE_COUNT")) ==>
      SideCard(metrics).subtitle == Some([Str("Ordered 0 times")])
    ensures !Truthy(Nested(metrics, "total_inches", "INCHES_OF_SANDWICH")) ==>
      InchesCard(metrics).value == [Str("0 inches")]
    ensures !Truthy(Nested(metrics, "most_visited_store", "MOST_VISITED_COUNT")) ==>
      StoreCard(metrics).subtitle == Some([Str("Your go-to spot with 0 visits")])
    ensures !Truthy(Nested(metrics, "favorite_month", "NUMOFVISITS")) ==>
      MonthCard(metrics).subtitle == Some([Str("You visited 0 times")])
  {
    CountTextOfFalsy(Num(0));
    assert "Ordered " + "0" + " times" == "Ordered 0 times";
    assert "0" + " inches" == "0 inches";
    assert "Your go-to spot with " + "0" + " visits" == "Your go-to spot with 0 visits";
    assert "You visited " + "0" + " times" == "You visited 0 times";
  }

  datatype Screen =
    | Spinner
    | ErrorAlert(message: string)
    | Page(greeting: seq<JsValue>, cards: seq<Card>)

  /** The render: loading first, then the error, then the page. */
  function Render(loading: bool, error: Option<string>, customer: JsValue, metrics: JsValue): (s: Screen)
    ensures s.Spinner? <==> loading
    ensures s.ErrorAlert? <==> !loading && TruthyText(error)
    ensures s.ErrorAlert? ==> s.message == error.value
    ensures s.Page? ==> s.greeting == Greeting(customer) && s.cards == DashboardCards(metrics)
  {
    if loading then Spinner
    else if TruthyText(error) then ErrorAlert(error.value)
    else Page(Greeting(customer), DashboardCards(metrics))
  }

  const MetricsError: string := "Failed to load metrics"

  class Dashboard {
    var customerData: JsValue
    var metrics: JsValue
    var loading: bool
    var error: Option<string>

    constructor ()
      ensures customerData == Null && metrics == Null && loading && error == None
    {
      customerData, metrics, loading, error := Null, Null, true, None;
    }

    function View(): Screen
      reads this
    {
      Render(loading, error, customerData, metrics)
    }

    /** The mount effect. Without a stored record it navigates to '/' and sends nothing.
        With one, customerData becomes the record and exactly one metrics request goes
        out, keyed by its CUSTOMER_KEY. A stored null or undefined makes the effect throw
        (JSON.parse or the property read fails) before any request. */
    method Mount(storage: LocalStorage, nav: Navigator, http: HttpClient) returns (thrown: bool)
      modifies this, nav, http
      ensures CustomerDataKey !in storage.items ==>
        && !thrown
        && nav.visited == old(nav.visited) + ["/"]
        && http.sent == old(http.sent)
        && customerData == old(customerData) && metrics == old(metrics)
        && loading == old(loading) && error == old(error)
      ensures CustomerDataKey in storage.items ==> nav.visited == old(nav.visited)
      ensures CustomerDataKey in storage.items && IsNullish(storage.items[CustomerDataKey]) ==>
        && thrown
        && http.sent == old(http.sent)
        && customerData == (if storage.items[CustomerDataKey].Null? then Null else old(customerData))
        && metrics == old(metrics) && loading == old(loading) && error == old(error)
      ensures CustomerDataKey in storage.items && !IsNullish(storage.items[CustomerDataKey]) ==>
        var request := CustomerMetricsRequest(ToText(Prop(storage.items[CustomerDataKey], "CUSTOMER_KEY")));
        && !thrown
        && customerData == storage.items[CustomerDataKey]
        && http.sent == old(http.sent) + [request]
        && !loading
        && (http.server(request).Ok? ==> metrics == http.server(request).data && error == old(error))
        && (http.server(request).Failed? ==> error == Some(MetricsError) && metrics == old(metrics))
    {
      var stored := storage.GetItem(CustomerDataKey);
      if stored.None? {
        nav.Navigate("/");
        return false;
      }
      var customer := stored.value;
      if customer.Undefined? {
        return true;
      }
      customerData := customer;
      if customer.Null? {
        return true;
      }
      FetchMetrics(Prop(customer, "CUSTOMER_KEY"), http);
      thrown := false;
    }

    /** fetchMetrics: one request; its data becomes metrics, or the error is set and
        metrics kept; loading is false either way. */
    method FetchMetrics(customerKey: JsValue, http: HttpClient)
      modifies this, http
      ensures var request := CustomerMetricsRequest(ToText(customerKey));
        && http.sent == old(http.sent) + [request]
        && customerData == old(customerData)
        && !loading
        && (http.server(request).Ok? ==> metrics == http.server(request).data && error == old(error))
        && (http.server(request).Failed? ==> error == Some(MetricsError) && metrics == old(metrics))
    {
      var outcome := http.Get(CustomerMetricsRequest(ToText(customerKey)));
      match outcome {
        case Ok(data) => metrics := data;
        case Failed(_) => error := Some(MetricsError);
      }
      loading := false;
    }

    /** handleLogout: the stored record is removed and the view navigates to '/'. */
    method HandleLogout(storage: LocalStorage, nav: Navigator)
      modifies storage, nav
      ensures storage.items == old(storage.items) - {CustomerDataKey}
      ensures nav.visited == old(nav.visited) + ["/"]
    {
      storage.RemoveItem(CustomerDataKey);
      nav.Navigate("/");
    }
  }

  /** After a logout, a freshly mounted dashboard redirects again and fetches nothing. */
  method LogoutThenRemount(d: Dashboard, storage: LocalStorage, nav: Navigator, http: HttpClient)
      returns (next: Dashboard)
    modifies storage, nav, http
    ensures CustomerDataKey !in storage.items
    ensures nav.visited == old(nav.visited) + ["/", "/"]
    ensures http.sent == old(http.sent)
    ensures next.View() == Spinner
  {
    d.HandleLogout(storage, nav);
    next := new Dashboard();
    var thrown := next.Mount(storage, nav, http);
  }
}
