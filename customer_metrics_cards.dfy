/** The customer picker of CustomerMetrics/index.jsx: the same flow as the inline picker,
    but through the services/api.js helpers and with the MetricCard component. */
module CustomerMetricsCards {
  import opened Wrappers
  import opened Numerals
  import opened JsValues
  import opened Browser
  import opened ApiService
  import opened CustomerSelect

  const CustomersError: string := "Failed to load customers"
  const MetricsError: string := "Failed to load customer metrics"

  function CardsOf(metrics: JsValue): (cards: seq<Card>)
    ensures |cards| == 5
  {
    [SandwichCard(metrics), SideCard(metrics), InchesCard(metrics), StoreCard(metrics), MonthCard(metrics)]
  }

  /** The sandwich name, or 'N/A' when the name is falsy, and "Ordered n times". */
  function SandwichCard(metrics: JsValue): (c: Card)
    ensures var name := Nested(metrics, "favorite_sandwich", "SANDWICH");
      c.value == [if Truthy(name) then name else Str("N/A")]
    ensures c.subtitle == Some([Str("Ordered " + CountText(Nested(metrics, "favorite_sandwich", "SANDWICH_COUNT")) + " times")])
  {
    MetricCard("Favorite Sandwich",
      Or(Nested(metrics, "favorite_sandwich", "SANDWICH"), Str("N/A")),
      Str("Ordered " + CountText(Nested(metrics, "favorite_sandwich", "SANDWICH_COUNT")) + " times"))
  }

  /** The side name, or 'N/A' when the name is falsy, and "Ordered n times". */
  function SideCard(metrics: JsValue): (c: Card)
    ensures var name := Nested(metrics, "favorite_side", "SIDE");
      c.value == [if Truthy(name) then name else Str("N/A")]
    ensures c.subtitle == Some([Str("Ordered " + CountText(Nested(metrics, "favorite_side", "SIDE_COUNT")) + " times")])
  {
    MetricCard("Favorite Side",
      Or(Nested(metrics, "favorite_side", "SIDE"), Str("N/A")),
      Str("Ordered " + CountText(Nested(metrics, "favorite_side", "SIDE_COUNT")) + " times"))
  }

  /** No subtitle is passed, so none is rendered. */
  function InchesCard(metrics: JsValue): (c: Card)
    ensures c.subtitle == None
  {
    MetricCard("Total Inches of Sandwich",
      Str(CountText(Nested(metrics, "total_inches", "INCHES_OF_SANDWICH")) + " inches"),
      Undefined)
  }

  /** The store card shows the visit count, not the city, and has no subtitle. */
  function StoreCard(metrics: JsValue): (c: Card)
    ensures c.value == [Str(CountText(Nested(metrics, "most_visited_store", "MOST_VISITED_COUNT")) + " visits")]
    ensures c.subtitle == None
  {
    MetricCard("Most Visited Store",
      Str(CountText(Nested(metrics, "most_visited_store", "MOST_VISITED_COUNT")) + " visits"),
      Undefined)
  }

  /** The month card shows the month number as stored, not its name. */
  function MonthCard(metrics: JsValue): (c: Card)
    ensures var month := Nested(metrics, "favorite_month", "MONTH");
      c.value == [if Truthy(month) then month else Str("N/A")]
    ensures c.subtitle == Some([Str(CountText(Nested(metrics, "favorite_month", "NUMOFVISITS")) + " visits")])
  {
    MetricCard("Favorite Month",
      Or(Nested(metrics, "favorite_month", "MONTH"), Str("N/A")),
      Str(CountText(Nested(metrics, "favorite_month", "NUMOFVISITS")) + " visits"))
  }

  /** Each missing (falsy) count reads 0 on its card, whatever the other fields hold. */
  lemma MissingCountsShowZero(metrics: JsValue)
    ensures !Truthy(Nested(metrics, "favorite_sandwich", "SANDWICH_COUNT")) ==>
      SandwichCard(metrics).subtitle == Some([Str("Ordered 0 times")])
    ensures !Truthy(Nested(metrics, "favorite_side", "SIDE_COUNT")) ==>
      SideCard(metrics).subtitle == Some([Str("Ordered 0 times")])
    ensures !Truthy(Nested(metrics, "total_inches", "INCHES_OF_SANDWICH")) ==>
      InchesCard(metrics).value == [Str("0 inches")]
    ensures !Truthy(Nested(metrics, "most_visited_store", "MOST_VISITED_COUNT")) ==>
      StoreCard(metrics).value == [Str("0 visits")]
    ensures !Truthy(Nested(metrics, "favorite_month", "NUMOFVISITS")) ==>
      MonthCard(metrics).subtitle == Some([Str("0 visits")])
  {
    assert "Ordered " + "0" + " times" == "Ordered 0 times";
    assert "0" + " inches" == "0 inches";
    assert "0" + " visits" == "0 visits";
    var counts := [
      Nested(metrics, "favorite_sandwich", "SANDWICH_COUNT"),
      Nested(metrics, "favorite_side", "SIDE_COUNT"),
      Nested(metrics, "total_inches", "INCHES_OF_SANDWICH"),
      Nested(metrics, "most_visited_store", "MOST_VISITED_COUNT"),
      Nested(metrics, "favorite_month", "NUMOFVISITS")];
    forall i | 0 <= i < |counts| && !Truthy(counts[i])
      ensures CountText(counts[i]) == "0"
    {
      CountTextOfFalsy(counts[i]);
    }
  }

  /** The month card shows the stored number, where the dashboard shows its name. */
  lemma MonthShownAsNumber(metrics: JsValue, n: int)
    requires Nested(metrics, "favorite_month", "MONTH") == Num(n) && n != 0
    ensures MonthCard(metrics).value == [Num(n)]
    ensures ChildrenText(MonthCard(metrics).value) == Some(IntToText(n))
  {
    var v := MonthCard(metrics).value;
    assert v[1..] == [];
    assert ChildrenText(v[1..]) == Some("");
    assert IntToText(n) + "" == IntToText(n);
  }

  class CustomerMetrics {
    var customers: JsValue
    var selectedCustomer: JsValue
    var metrics: JsValue
    var loading: bool
    var error: Option<string>

    constructor ()
      ensures customers == Array([]) && selectedCustomer == Str("") && metrics == Null
      ensures !loading && error == None
    {
      customers, selectedCustomer, metrics, loading, error := Array([]), Str(""), Null, false, None;
    }

    function View(): PickerScreen
      reads this
    {
      RenderPicker(customers, selectedCustomer, error, loading, metrics, CardsOf(metrics))
    }

    /** The mount effect: `results` of the resolved body becomes the customers list with
        no fallback (a body without it leaves customers undefined, and the drop-down then
        cannot render); a rejection or a null body sets the error. */
    method FetchCustomers(http: HttpClient)
      modifies this, http
      ensures http.sent == old(http.sent) + [CustomersRequest]
      ensures selectedCustomer == old(selectedCustomer) && metrics == old(metrics) && loading == old(loading)
      ensures var o := http.server(CustomersRequest);
        && (o.Ok? && !IsNullish(o.data) ==> customers == Prop(o.data, "results") && error == old(error))
        && (!(o.Ok? && !IsNullish(o.data)) ==> customers == old(customers) && error == Some(CustomersError))
      ensures var o := http.server(CustomersRequest);
        o.Ok? && o.data.Object? && "results" !in o.data.fields ==> View().options == None
    {
      var settled := GetCustomers(http);
      if settled.Resolved? && !IsNullish(settled.data) {
        customers := Prop(settled.data, "results");
      } else {
        error := Some(CustomersError);
      }
    }

    method BeginSelection(customerKey: JsValue)
      modifies this
      ensures selectedCustomer == customerKey && loading && error == None
      ensures customers == old(customers) && metrics == old(metrics)
    {
      selectedCustomer, loading, error := customerKey, true, None;
    }

    method FinishSelection(settled: Settled)
      modifies this
      ensures !loading && customers == old(customers) && selectedCustomer == old(selectedCustomer)
      ensures settled.Resolved? ==> metrics == settled.data && error == old(error)
      ensures settled.Rejected? ==> metrics == old(metrics) && error == Some(MetricsError)
    {
      match settled {
        case Resolved(data) => metrics := data;
        case Rejected(_) => error := Some(MetricsError);
      }
      loading := false;
    }

    /** handleCustomerChange: the helper's own rejection message is replaced by this
        view's error text. */
    method HandleCustomerChange(customerKey: JsValue, http: HttpClient)
      modifies this, http
      ensures http.sent == old(http.sent) + [CustomerMetricsRequest(ToText(customerKey))]
      ensures selectedCustomer == customerKey && customers == old(customers) && !loading
      ensures var o := http.server(CustomerMetricsRequest(ToText(customerKey)));
        && (o.Ok? ==> metrics == o.data && error == None)
        && (o.Failed? ==> metrics == old(metrics) && error == Some(MetricsError))
    {
      BeginSelection(customerKey);
      var settled := GetCustomerMetrics(customerKey, http);
      FinishSelection(settled);
    }
  }
}
