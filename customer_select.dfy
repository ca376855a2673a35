/** What the two customer-picker views share: the customer drop-down built from the
    customers list, and the rule that shows the metrics panel. */
module CustomerSelect {
  import opened Wrappers
  import opened JsValues

  /** One option: its value is the customer's key, its text "first last". */
  datatype MenuItem = MenuItem(key: JsValue, text: string)

  /** The option for one customer; reading a property of null or undefined throws (None). */
  function MenuItemOf(customer: JsValue): (item: Option<MenuItem>)
    ensures item.Some? <==> !IsNullish(customer)
    ensures item.Some? ==> item.value.key == Prop(customer, "CUSTOMER_KEY")
    ensures item.Some? ==>
      item.value.text == ToText(Prop(customer, "CUSTOMERFNAME")) + " " + ToText(Prop(customer, "CUSTOMERLNAME"))
  {
    if IsNullish(customer) then None
    else Some(MenuItem(Prop(customer, "CUSTOMER_KEY"),
      ToText(Prop(customer, "CUSTOMERFNAME")) + " " + ToText(Prop(customer, "CUSTOMERLNAME"))))
  }

  function MenuItemsOf(cs: seq<JsValue>): (items: Option<seq<MenuItem>>)
    ensures items.Some? <==> forall i :: 0 <= i < |cs| ==> !IsNullish(cs[i])
    ensures items.Some? ==> |items.value| == |cs|
    ensures items.Some? ==> forall i :: 0 <= i < |cs| ==> MenuItemOf(cs[i]) == Some(items.value[i])
  {
    if cs == [] then Some([])
    else
      var rest := MenuItemsOf(cs[1..]);
      assert forall i :: 1 <= i < |cs| ==> cs[1..][i - 1] == cs[i];
      if MenuItemOf(cs[0]).None? || rest.None? then None
      else Some([MenuItemOf(cs[0]).value] + rest.value)
  }

  /** `customers.map(…)`: one option per customer, in order. Anything but an array has
      no `map`, and a null or undefined element has no properties: both make rendering
      fail (None). */
  function MenuItems(customers: JsValue): (items: Option<seq<MenuItem>>)
    ensures items.Some? <==>
      customers.Array? && forall i :: 0 <= i < |customers.items| ==> !IsNullish(customers.items[i])
    ensures items.Some? ==> |items.value| == |customers.items|
    ensures items.Some? ==>
      forall i :: 0 <= i < |customers.items| ==> MenuItemOf(customers.items[i]) == Some(items.value[i])
  {
    if customers.Array? then MenuItemsOf(customers.items) else None
  }

  /** `metrics && !loading`: the condition for showing the metric cards. */
  predicate ShowsPanel(metrics: JsValue, loading: bool) {
    Truthy(metrics) && !loading
  }

  /** What a picker view renders: the drop-down (None when it cannot be rendered), the
      selected value, the error alert, the progress indicator and the metric cards. */
  datatype PickerScreen = PickerScreen(
    options: Option<seq<MenuItem>>,
    selected: JsValue,
    alert: Option<string>,
    progress: bool,
    panel: Option<seq<Card>>)

  function RenderPicker(customers: JsValue, selected: JsValue, error: Option<string>, loading: bool,
                        metrics: JsValue, cards: seq<Card>): (s: PickerScreen)
    ensures s.options == MenuItems(customers) && s.selected == selected
    ensures s.alert.Some? <==> TruthyText(error)
    ensures s.alert.Some? ==> s.alert.value == error.value
    ensures s.progress == loading
    ensures s.panel.Some? <==> ShowsPanel(metrics, loading)
    ensures s.panel.Some? ==> s.panel.value == cards
  {
    PickerScreen(MenuItems(customers), selected,
      if TruthyText(error) then Some(error.value) else None,
      loading,
      if ShowsPanel(metrics, loading) then Some(cards) else None)
  }
}
