/** The login view: a phone number form whose submission looks the customer up, stores
    the record under the shared storage key and navigates to the dashboard route. */
module Login {
  import opened Wrappers
  import opened JsValues
  import opened Browser

  const NotFoundMessage: string := "Phone number not found. Please try again."
  const GenericMessage: string := "An error occurred. Please try again."

  /** The error shown for a failed lookup: the not-found text exactly for a 404 response,
      the generic text for every other status and for a failure without a response. */
  function LookupErrorMessage(status: Option<int>): (message: string)
    ensures message == NotFoundMessage <==> status == Some(404)
    ensures message == GenericMessage <==> status != Some(404)
  {
    if status == Some(404) then NotFoundMessage else GenericMessage
  }

  class LoginView {
    var phone: string
    var error: string

    constructor ()
      ensures phone == "" && error == ""
    {
      phone, error := "", "";
    }

    /** Whether the error alert is rendered (`error && …`). */
    predicate ShowsError()
      reads this
    {
      error != ""
    }

    /** The phone field's change handler. */
    method EditPhone(value: string)
      modifies this
      ensures phone == value && error == old(error)
    {
      phone := value;
    }

    /** The synchronous start of handleSubmit: the error is cleared. */
    method BeginSubmit()
      modifies this
      ensures phone == old(phone) && error == ""
      ensures !ShowsError()
    {
      error := "";
    }

    /** The rest of handleSubmit, once the lookup settled. Truthy data is stored and the
        view navigates to '/metrics'; falsy data does nothing; a failure sets the error
        for its status and neither stores nor navigates. */
    method FinishSubmit(outcome: HttpOutcome, storage: LocalStorage, nav: Navigator)
      modifies this, storage, nav
      ensures phone == old(phone)
      ensures outcome.Ok? && Truthy(outcome.data) ==>
        && storage.items == old(storage.items)[CustomerDataKey := outcome.data]
        && nav.visited == old(nav.visited) + ["/metrics"]
        && error == old(error)
      ensures outcome.Ok? && !Truthy(outcome.data) ==>
        storage.items == old(storage.items) && nav.visited == old(nav.visited) && error == old(error)
      ensures outcome.Failed? ==>
        && error == LookupErrorMessage(outcome.status)
        && ShowsError()
        && storage.items == old(storage.items) && nav.visited == old(nav.visited)
    {
      match outcome {
        case Ok(data) =>
          if Truthy(data) {
            storage.SetItem(CustomerDataKey, data);
            nav.Navigate("/metrics");
          }
        case Failed(status) =>
          error := LookupErrorMessage(status);
      }
    }

    /** handleSubmit: the phone as typed goes into one lookup request; afterwards the error
        is empty unless the lookup failed. */
    method HandleSubmit(storage: LocalStorage, nav: Navigator, http: HttpClient)
      modifies this, storage, nav, http
      ensures http.sent == old(http.sent) + [CustomerByPhoneRequest(old(phone))]
      ensures phone == old(phone)
      ensures var outcome := http.server(CustomerByPhoneRequest(old(phone)));
        && (outcome.Ok? && Truthy(outcome.data) ==>
              && storage.items == old(storage.items)[CustomerDataKey := outcome.data]
              && nav.visited == old(nav.visited) + ["/metrics"])
        && (!(outcome.Ok? && Truthy(outcome.data)) ==>
              storage.items == old(storage.items) && nav.visited == old(nav.visited))
        && error == (if outcome.Failed? then LookupErrorMessage(outcome.status) else "")
        && (ShowsError() <==> outcome.Failed?)
    {
      BeginSubmit();
      var outcome := http.Get(CustomerByPhoneRequest(phone));
      FinishSubmit(outcome, storage, nav);
    }

    /** Submitting the form: the phone field is `required`, so with an empty phone the
        browser blocks the submission and nothing happens. */
    method SubmitForm(storage: LocalStorage, nav: Navigator, http: HttpClient)
      modifies this, storage, nav, http
      ensures phone == old(phone)
      ensures old(phone) == "" ==>
        && http.sent == old(http.sent) && error == old(error)
        && storage.items == old(storage.items) && nav.visited == old(nav.visited)
      ensures old(phone) != "" ==>
        var outcome := http.server(CustomerByPhoneRequest(old(phone)));
        && http.sent == old(http.sent) + [CustomerByPhoneRequest(old(phone))]
        && (outcome.Ok? && Truthy(outcome.data) ==>
              && storage.items == old(storage.items)[CustomerDataKey := outcome.data]
              && nav.visited == old(nav.visited) + ["/metrics"])
        && (!(outcome.Ok? && Truthy(outcome.data)) ==>
              storage.items == old(storage.items) && nav.visited == old(nav.visited))
        && error == (if outcome.Failed? then LookupErrorMessage(outcome.status) else "")
    {
      if phone != "" {
        HandleSubmit(storage, nav, http);
      }
    }
  }
}
