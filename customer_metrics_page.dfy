/** The customer picker of CustomerMetrics.jsx: it loads the customers list on mount,
    loads one customer's metrics when one is selected, and shows them in five cards
    written out inline. */
module CustomerMetricsPage {
  import opened Wrappers
  import opened Numerals
  import opened JsValues
  import opened Browser
  import opened CustomerSelect

  const CustomersError: string := "Failed to load customers"
  const MetricsError: string := "Failed to load metrics"

  /** The inline cards: their lines are sequences of React children, so a count or a
      name is rendered by React rather than converted by a template literal. */
  function PageCards(metrics: JsValue): (cards: seq<Card>)
    ensures |cards| == 5
    ensures cards[2].subtitle.None? && cards[3].subtitle.None?
  {
    [SandwichCard(metrics), SideCard(metrics), InchesCard(metrics), StoreCard(metrics), MonthCard(metrics)]
  }

  function SandwichCard(metrics: JsValue): Card {
    Card("Favorite Sandwich",
      [Or(Nested(metrics, "favorite_sandwich", "SANDWICH"), Str("N/A"))],
      Some([Str("Ordered "), Or(Nested(metrics, "favorite_sandwich", "SANDWICH_COUNT"), Num(0)), Str(" times")]))
  }

  function SideCard(metrics: JsValue): Card {
    Card("Favorite Side",
      [Or(Nested(metrics, "favorite_side", "SIDE"), Str("N/A"))],
      Some([Str("Ordered "), Or(Nested(metrics, "favorite_side", "SIDE_COUNT"), Num(0)), Str(" times")]))
  }

  function InchesCard(metrics: JsValue): Card {
    Card("Total Inches of Sandwich",
      [Or(Nested(metrics, "total_inches", "INCHES_OF_SANDWICH"), Num(0)), Str(" inches")],
      None)
  }

  /** The store card shows the visit count, not the city. */
  function StoreCard(metrics: JsValue): Card {
    Card("Most Visited Store",
      [Or(Nested(metrics, "most_visited_store", "MOST_VISITED_COUNT"), Num(0)), Str(" visits")],
      None)
  }

  /** The month card shows the month number as stored, not its name. */
  function MonthCard(metrics: JsValue): Card {
    Card("Favorite Month",
      [Or(Nested(metrics, "favorite_month", "MONTH"), Str("N/A"))],
      Some([Or(Nested(metrics, "favorite_month", "NUMOFVISITS"), Num(0)), Str(" visits")]))
  }

  /** Rendering `{x || 0}` as a child gives the same text as the template literal
      `${x || 0}` for a number, a string or a missing value; `true` and arrays differ. */
  lemma CountChildText(x: JsValue)
    requires x.Num? || x.Str? || !Truthy(x)
    ensures ChildText(Or(x, Num(0))) == Some(CountText(x))
  {
    if !Truthy(x) {
      CountTextOfFalsy(x);
    }
  }

  lemma CountChildTextDiffers()
    ensures ChildText(Or(Bool(true), Num(0))) == Some("")
    ensures CountText(Bool(true)) == "true"
  {
  }

  /** The sandwich card's text: the name or 'N/A', and "Ordered n times". */
  lemma SandwichCardText(metrics: JsValue, name: string, count: int)
    requires Nested(metrics, "favorite_sandwich", "SANDWICH") == Str(name) && name != ""
    requires Nested(metrics, "favorite_sandwich", "SANDWICH_COUNT") == Num(count)
    ensures ChildrenText(SandwichCard(metrics).value) == Some(name)
    ensures ChildrenText(SandwichCard(metrics).subtitle.value) == Some("Ordered " + IntToText(count) + " times")
  {
    CountChildText(Num(count));
    ChildrenTextOfThree(Str("Ordered "), Num(count), Str(" times"));
    ChildrenTextOfOne(Str(name));
  }

  /** Missing (falsy) names and a missing month read 'N/A'. */
  lemma PageNameDefaults(metrics: JsValue)
    ensures !Truthy(Nested(metrics, "favorite_sandwich", "SANDWICH")) ==>
      ChildrenText(SandwichCard(metrics).value) == Some("N/A")
    ensures !Truthy(Nested(metrics, "favorite_side", "SIDE")) ==>
      ChildrenText(SideCard(metrics).value) == Some("N/A")
    ensures !Truthy(Nested(metrics, "favorite_month", "MONTH")) ==>
      ChildrenText(MonthCard(metrics).value) == Some("N/A")
  {
    ChildrenTextOfOne(Str("N/A"));
  }

  /** Missing (falsy) order counts read "Ordered 0 times". */
  lemma PageCountDefaults(metrics: JsValue)
    ensures !Truthy(Nested(metrics, "favorite_sandwich", "SANDWICH_COUNT")) ==>
      ChildrenText(SandwichCard(metrics).subtitle.value) == Some("Ordered 0 times")
    ensures !Truthy(Nested(metrics, "favorite_side", "SIDE_COUNT")) ==>
      ChildrenText(SideCard(metrics).subtitle.value) == Some("Ordered 0 times")
  {
    assert IntToText(0) == "0";
    ChildrenTextOfThree(Str("Ordered "), Num(0), Str(" times"));
    assert "Ordered " + "0" + " times" == "Ordered 0 times";
  }

  /** A missing (falsy) total, store visit count or month visit count reads 0. */
  lemma PageTotalDefaults(metrics: JsValue)
    ensures !Truthy(Nested(metrics, "total_inches", "INCHES_OF_SANDWICH")) ==>
      ChildrenText(InchesCard(metrics).value) == Some("0 inches")
    ensures !Truthy(Nested(metrics, "most_visited_store", "MOST_VISITED_COUNT")) ==>
      ChildrenText(StoreCard(metrics).value) == Some("0 visits")
    ensures !Truthy(Nested(metrics, "favorite_month", "NUMOFVISITS")) ==>
      ChildrenText(MonthCard(metrics).subtitle.value) == Some("0 visits")
  {
    assert IntToText(0) == "0";
    ChildrenTextOfTwo(Num(0), Str(" inches"));
    ChildrenTextOfTwo(Num(0), Str(" visits"));
    assert "0" + " inches" == "0 inches";
    assert "0" + " visits" == "0 visits";
  }

  class CustomerMetrics {
    var customers: JsValue
    var selectedCustomer: JsValue
    var metrics: JsValue
    var loading: bool
    var error: Option<string>

    constructor ()
      ensures customers == Array([]) && selectedCustomer == Str("") && metrics == Null
      ensures !loading && error == None
    {
      customers, selectedCustomer, metrics, loading, error := Array([]), Str(""), Null, false, None;
    }

    function View(): PickerScreen
      reads this
    {
      RenderPicker(customers, selectedCustomer, error, loading, metrics, PageCards(metrics))
    }

    /** The mount effect: one customers request. Its body's `results`, or an empty list
        when that is falsy, becomes the customers list; a failed request, or a null body
        whose `results` cannot be read, sets the error instead. */
    method FetchCustomers(http: HttpClient)
      modifies this, http
      ensures http.sent == old(http.sent) + [CustomersRequest]
      ensures selectedCustomer == old(selectedCustomer) && metrics == old(metrics) && loading == old(loading)
      ensures var o := http.server(CustomersRequest);
        && (o.Ok? && !IsNullish(o.data) ==>
              customers == Or(Prop(o.data, "results"), Array([])) && error == old(error))
        && (!(o.Ok? && !IsNullish(o.data)) ==>
              customers == old(customers) && error == Some(CustomersError))
    {
      var outcome := http.Get(CustomersRequest);
      if outcome.Ok? && !IsNullish(outcome.data) {
        customers := Or(Prop(outcome.data, "results"), Array([]));
      } else {
        error := Some(CustomersError);
      }
    }

    /** The synchronous start of handleCustomerChange. */
    method BeginSelection(customerKey: JsValue)
      modifies this
      ensures selectedCustomer == customerKey && loading && error == None
      ensures customers == old(customers) && metrics == old(metrics)
    {
      selectedCustomer, loading, error := customerKey, true, None;
    }

    /** The rest of handleCustomerChange, once the metrics request settled. */
    method FinishSelection(outcome: HttpOutcome)
      modifies this
      ensures !loading && customers == old(customers) && selectedCustomer == old(selectedCustomer)
      ensures outcome.Ok? ==> metrics == outcome.data && error == old(error)
      ensures outcome.Failed? ==> metrics == old(metrics) && error == Some(MetricsError)
    {
      match outcome {
        case Ok(data) => metrics := data;
        case Failed(_) => error := Some(MetricsError);
      }
      loading := false;
    }

    /** handleCustomerChange: one metrics request keyed by the selected value. A failed
        request keeps the earlier metrics, so their cards stay on screen under the alert. */
    method HandleCustomerChange(customerKey: JsValue, http: HttpClient)
      modifies this, http
      ensures http.sent == old(http.sent) + [CustomerMetricsRequest(ToText(customerKey))]
      ensures selectedCustomer == customerKey && customers == old(customers) && !loading
      ensures var o := http.server(CustomerMetricsRequest(ToText(customerKey)));
        && (o.Ok? ==> metrics == o.data && error == None)
        && (o.Failed? ==> metrics == old(metrics) && error == Some(MetricsError))
        && (o.Failed? && Truthy(old(metrics)) ==>
              View().alert == Some(MetricsError) && View().panel == Some(PageCards(old(metrics))))
    {
      BeginSelection(customerKey);
      var outcome := http.Get(CustomerMetricsRequest(ToText(customerKey)));
      FinishSelection(outcome);
    }
  }
}
