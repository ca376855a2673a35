/** The API as the browser sees it: Django REST framework renders each endpoint's
    response as JSON, and axios resolves with the parsed body for a 2xx status and
    rejects with the status otherwise. */
module Api {
  import opened Wrappers
  import opened SqlResults
  import opened Backend
  import opened JsValues
  import opened Browser

  function CellToJs(c: Cell): JsValue {
    match c
    case SqlNull => Null
    case SqlInt(i) => Num(i)
    case SqlText(s) => Str(s)
  }

  function RecordToJs(r: Record): (v: JsValue)
    ensures v.Object? && v.fields.Keys == r.Keys
    ensures forall k :: k in r ==> v.fields[k] == CellToJs(r[k])
  {
    Object(map k | k in r :: CellToJs(r[k]))
  }

  function OptionalRecordToJs(r: Option<Record>): JsValue {
    if r.None? then Null else RecordToJs(r.value)
  }

  function BodyToJs(b: Body): JsValue {
    match b
    case ErrorBody(e) => Object(map["error" := Str(e)])
    case RecordBody(r) => RecordToJs(r)
    case DataBody(d) =>
      Object(map[
        "columns" := Array(seq(|d.columns|, i requires 0 <= i < |d.columns| => Str(d.columns[i]))),
        "results" := Array(seq(|d.results|, i requires 0 <= i < |d.results| => RecordToJs(d.results[i]))),
        "row_count" := Num(d.rowCount)])
    case MetricsBody(m) => Object(map k | k in m :: OptionalRecordToJs(m[k]))
  }

  function ToHttp(r: Response): (o: HttpOutcome)
    ensures 200 <= r.status < 300 ==> o == Ok(BodyToJs(r.body))
    ensures !(200 <= r.status < 300) ==> o == Failed(Some(r.status))
  {
    if 200 <= r.status < 300 then Ok(BodyToJs(r.body)) else Failed(Some(r.status))
  }

  /** The backend behind the three URLs; the interpolated text arrives as the query
      parameter's value. */
  function Serve(db: Database, request: Request): HttpOutcome {
    match request
    case CustomersRequest => ToHttp(GetCustomers(db))
    case CustomerByPhoneRequest(phone) => ToHttp(GetCustomerByPhone(Some(phone), db))
    case CustomerMetricsRequest(key) => ToHttp(MetricsResponse(Some(key), db))
  }

  /** A phone lookup is rejected with 404 exactly when the lookup query ran without error
      and found no customer, and it resolves exactly when it found one. */
  lemma LookupOutcomes(db: Database, phone: string)
    requires phone != ""
    ensures var o := db(CustomerWithPhone(phone));
      && (Serve(db, CustomerByPhoneRequest(phone)) == Failed(Some(404)) <==> o.Fetched? && o.rows == [])
      && (Serve(db, CustomerByPhoneRequest(phone)).Ok? <==> o.Fetched? && o.rows != [])
      && (o.Fetched? && o.rows != [] ==>
            Serve(db, CustomerByPhoneRequest(phone)) == Ok(RecordToJs(ZipRecord(ColumnNames(o.description), o.rows[0]))))
  {
  }

  /** A metrics request with a non-empty key always resolves, with one property per
      metric query that did not raise. */
  lemma MetricsAlwaysResolve(db: Database, key: string)
    requires key != ""
    ensures Serve(db, CustomerMetricsRequest(key)).Ok?
    ensures Serve(db, CustomerMetricsRequest(key)).data.Object?
    ensures forall name :: name in Serve(db, CustomerMetricsRequest(key)).data.fields <==> name in CollectMetrics(key, db)
  {
  }
}
