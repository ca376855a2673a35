/** The client helpers of services/api.js: each sends one GET request and resolves with
    the response body, or rejects with its own fixed message in place of the original error. */
module ApiService {
  import opened JsValues
  import opened Browser

  datatype Settled = Resolved(data: JsValue) | Rejected(message: string)

  const CustomersFailure: string := "Failed to fetch customers"
  const MetricsFailure: string := "Failed to fetch customer metrics"

  /** What a helper does with the outcome of its request. */
  function Settle(outcome: HttpOutcome, failure: string): (s: Settled)
    ensures outcome.Ok? <==> s.Resolved?
    ensures outcome.Ok? ==> s.data == outcome.data
    ensures outcome.Failed? ==> s.message == failure
  {
    match outcome
    case Ok(data) => Resolved(data)
    case Failed(_) => Rejected(failure)
  }

  /** getCustomers */
  method GetCustomers(http: HttpClient) returns (s: Settled)
    modifies http
    ensures http.sent == old(http.sent) + [CustomersRequest]
    ensures s == Settle(http.server(CustomersRequest), CustomersFailure)
  {
    var outcome := http.Get(CustomersRequest);
    s := Settle(outcome, CustomersFailure);
  }

  /** getCustomerMetrics: the key is interpolated into the query string. */
  method GetCustomerMetrics(customerKey: JsValue, http: HttpClient) returns (s: Settled)
    modifies http
    ensures http.sent == old(http.sent) + [CustomerMetricsRequest(ToText(customerKey))]
    ensures s == Settle(http.server(CustomerMetricsRequest(ToText(customerKey))), MetricsFailure)
  {
    var outcome := http.Get(CustomerMetricsRequest(ToText(customerKey)));
    s := Settle(outcome, MetricsFailure);
  }
}
