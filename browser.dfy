/** The browser services the views use: localStorage, react-router's navigate, and
    HTTP GET requests to the three API endpoints. */
module Browser {
  import opened Wrappers
  import opened JsValues

  /** The one storage key the views share. */
  const CustomerDataKey: string := "customerData"

  /** A GET request to one endpoint, with the text interpolated into its query string. */
  datatype Request =
    | CustomersRequest
    | CustomerByPhoneRequest(phone: string)
    | CustomerMetricsRequest(customerKey: string)

  /** How a request settled: a 2xx response with its parsed body, or a rejected promise,
      with the status when there was a response at all (none for a network failure). */
  datatype HttpOutcome = Ok(data: JsValue) | Failed(status: Option<int>)

  /** localStorage. An entry holds the value that was serialised into it; reading it back
      gives that value again. */
  class LocalStorage {
    var items: map<string, JsValue>

    constructor (initial: map<string, JsValue>)
      ensures items == initial
    {
      items := initial;
    }

    /** getItem: the stored value, or None for null when the key has no entry. */
    method GetItem(key: string) returns (v: Option<JsValue>)
      ensures v.Some? <==> key in items
      ensures v.Some? ==> v.value == items[key]
    {
      v := if key in items then Some(items[key]) else None;
    }

    /** setItem: stores the value, replacing any earlier one. */
    method SetItem(key: string, value: JsValue)
      modifies this
      ensures items == old(items)[key := value]
    {
      items := items[key := value];
    }

    /** removeItem: drops the entry when there is one. */
    method RemoveItem(key: string)
      modifies this
      ensures items == old(items) - {key}
    {
      items := items - {key};
    }
  }

  /** The router as the views see it: the routes navigated to, in order. */
  class Navigator {
    var visited: seq<string>

    constructor ()
      ensures visited == []
    {
      visited := [];
    }

    method Navigate(path: string)
      modifies this
      ensures visited == old(visited) + [path]
    {
      visited := visited + [path];
    }
  }

  /** The HTTP client: a fixed server answering each request, and the requests sent. */
  class HttpClient {
    const server: Request -> HttpOutcome
    var sent: seq<Request>

    constructor (server: Request -> HttpOutcome)
      ensures this.server == server && sent == []
    {
      this.server := server;
      sent := [];
    }

    method Get(request: Request) returns (outcome: HttpOutcome)
      modifies this
      ensures sent == old(sent) + [request]
      ensures outcome == server(request)
    {
      sent := sent + [request];
      outcome := server(request);
    }
  }
}
