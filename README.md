# Sam's Subs customer portal — a Dafny model

The portal has two parts:

- A Django REST viewset, `SnowflakeDataViewSet`. It answers three GET endpoints (`get_customers`, `get_customer_by_phone` and `customer_metrics`) by running SQL against a Snowflake warehouse.
- Four React views:
  - the phone-number login;
  - the customer dashboard;
  - two customer-picker pages, which show the same five metrics.

This project models the decision logic and state transitions of both parts.

**Backend** (`Backend`, `SqlResults`, `OrderAggregates`):

- `execute_snowflake_query` is a function. It takes what the cursor returned and produces the `{columns, results, row_count}` data, or the error text of the exception.
- The warehouse is a function from the query sent, with its bound parameter, to what running it did.
- `customer_metrics` is a method that fills the metrics dictionary key by key, as the view does. It also returns the list of queries it issued. It is proved equal to a functional definition.
- The meaning of the favorite-sandwich, favorite-side, total-inches and favorite-month queries is given as functions over the order lines: group, count or sum, then an arg-max.
  - SQL leaves two choices open: which tied product `ROW_NUMBER()` ranks first, and the row order of the favorite-month join.
  - Where it does, the answer is a predicate that every allowed result satisfies, plus one witness that satisfies it.
  - `FaithfulTo` states that a warehouse answers the four metric queries according to the order lines.

**Browser** (`Browser`, `Api`, `ApiService`):

- `localStorage` is a class over a map.
- The router is a class keeping the list of routes navigated to.
- The HTTP client is a class with a fixed server function and the list of requests sent.
- `Api.Serve` connects the backend to the HTTP client. Django REST framework renders each response as JSON; axios resolves for a 2xx status and rejects with the status otherwise.

**Views**:

- Each React view is a class whose fields are its `useState` cells.
- Each `async` handler is split into two parts: its synchronous start (`Begin…`), and what happens once the request settled (`Finish…`). A composing method (`Handle…`) does both around one request.
- Rendering is a function of the state.
- JavaScript values are a datatype, `JsValues.JsValue`. The model writes out the following JS semantics explicitly:
  - truthiness;
  - `||`;
  - optional chaining;
  - conversion to text as `String()`, or as a template literal does it;
  - `parseInt` without a radix;
  - React's rendering of children.

**End to end** (`EndToEnd`):

- What the dashboard's cards show for a faithful warehouse, stated on the order lines.
- The messages the login form shows for each lookup outcome.
- The picker's options for the customers endpoint.
- Signing in and opening the dashboard.

## Model

| member | source | states |
|---|---|---|
| SqlResults.ExecuteQuery | snowflake_data/views.py:34-56 | The query fails exactly when it raised, and then the error is the exception's text. Otherwise `columns` are the description's names, `row_count` equals the number of fetched rows and the length of `results`, and result i is row i zipped with the column names. |
| SqlResults.ZipRecord | snowflake_data/views.py:39 | The keys of `dict(zip(names, row))` are exactly the names up to the shorter of the two lists. |
| SqlResults.PairsAt | snowflake_data/views.py:39 | Building the dict one pair at a time, a name that does not appear again maps to its own value. |
| SqlResults.ZipRecordAt | snowflake_data/views.py:39 | Column i maps to row[i] unless a later column (within the zipped length) has the same name. |
| SqlResults.ZipRecordDistinct | snowflake_data/views.py:39 | With distinct column names, every zipped column maps to the value at its position. |
| SqlResults.ColumnNames | snowflake_data/views.py:37 | The column list is empty when the cursor has no description, and is the description's names otherwise. |
| SqlResults.FirstOrNone | snowflake_data/views.py:174 | `results[0] if results else None`: None exactly when there are no results, otherwise the first. |
| SqlResults.FirstRowOfFetched | snowflake_data/views.py:36-39 | For a non-empty fetch with distinct column names, the first formatted result maps each column to the first row's cell. |
| SqlResults.ThreeColumnRecord | snowflake_data/views.py:39 | With three distinct column names, the zipped dict maps the second and third names to the row's second and third cells. |
| OrderAggregates.ArgMax | snowflake_data/views.py:88-95 | The chosen key is one of the keys, and no key has a larger score. |
| OrderAggregates.ProductNames | snowflake_data/views.py:79-87 | A name appears exactly when its group count is positive; the list is empty exactly when the customer has no line of that kind. |
| OrderAggregates.FavoriteProduct | snowflake_data/views.py:78-117 | There is no favorite exactly when the customer has no sandwich (breadtype not null) or side (null) line. Otherwise the favorite's count is positive and at least the count of every other product of that kind. |
| OrderAggregates.FavoriteProductRows | snowflake_data/views.py:78-117 | This witness is an allowed result: no row without such a line, otherwise one row naming a most-ordered product with its own count. |
| OrderAggregates.FavoriteRowCountPositive | snowflake_data/views.py:80 | The count in any allowed favorite row is positive. |
| OrderAggregates.FavoriteUpToTies | snowflake_data/views.py:90 | Two allowed results have the same number of rows and the same count; they can differ only in which tied product they name. |
| OrderAggregates.SumLengthsAppend | snowflake_data/views.py:121 | SUM over a concatenation is the NULL-aware sum of the two parts. |
| OrderAggregates.SumLengthsNull | snowflake_data/views.py:121 | SUM is NULL exactly when none of the customer's lines has a length. |
| OrderAggregates.InchesRows | snowflake_data/views.py:120-128 | At most one row. No row unless the summed length is positive (`HAVING SUM(p.length) > 0`), and then the row holds that sum. |
| OrderAggregates.VisitedMonths | snowflake_data/views.py:147-154 | The months of the customer's lines, each once: a month is listed exactly when it has a visit. |
| OrderAggregates.MaxVisits | snowflake_data/views.py:155-160 | `maxvisits` bounds every month's count. It is positive exactly when the customer has lines, and is then reached by some month. |
| OrderAggregates.BusiestMonths | snowflake_data/views.py:161-166 | The months whose count equals the maximum, each once. |
| OrderAggregates.FavoriteMonthRows | snowflake_data/views.py:146-166 | This witness is an allowed result of the join: one row per busiest month with the maximal count, no duplicates, no other rows. |
| OrderAggregates.FavoriteMonthNonEmpty | snowflake_data/views.py:161-166 | Any allowed result of the join is empty exactly when the customer has no order lines. |
| Backend.GetCustomers | snowflake_data/views.py:58-68 | 500 with the exception text when the query raised. Otherwise 200 with the query's data (the column names and every row zipped with them), whose `row_count` and `results` length equal the number of rows. |
| Backend.GetCustomerByPhone | snowflake_data/views.py:285-299 | The response is one of four: 400 "Phone number is required" for a missing or empty phone; 500 with the error text; 404 "Customer not found" for no row; or 200 with the first row as a dict. |
| Backend.CollectMetricsMeaning | snowflake_data/views.py:169-196 | A metric key is present exactly when its query did not raise. It then holds None for no rows, and otherwise the first row zipped with its columns. |
| Backend.StoredResult | snowflake_data/views.py:173-174 | A query result is a success exactly when the warehouse fetched, and then the stored entry is None for no rows and the first zipped row otherwise. |
| Backend.CustomerMetrics | snowflake_data/views.py:71-196 | A missing or empty `customer_key` gives 400 "customer_key is required" and issues no query. Otherwise the method issues the five queries in order and answers 200 with the collected metrics. |
| Backend.FaithfulWarehouseExists | snowflake_data/views.py:78-166 | For any order lines there is a warehouse that answers all four modelled metric queries as the aggregates say. |
| Backend.WitnessFaithfulFor | snowflake_data/views.py:78-166 | The warehouse built from the deterministic witnesses is faithful for every customer key. |
| Backend.WitnessProductAnswer | snowflake_data/views.py:78-117 | The witness warehouse's favorite-sandwich and favorite-side answers for the decimal text of a key are allowed results for that customer. |
| Backend.WitnessMonthAnswer | snowflake_data/views.py:146-166 | The witness warehouse's favorite-month answer for the decimal text of a key is an allowed result for that customer. |
| Backend.FavoriteProductMetric | snowflake_data/views.py:172-179 | With a faithful warehouse, the favorite-sandwich (or side) entry is None exactly when there is no such line. Otherwise it names a product whose count is positive and maximal. |
| Backend.FaithfulInches | snowflake_data/views.py:120-127 | A faithful warehouse answers the inches query of a customer with the one-row grouped sum of lengths, or no row. |
| Backend.TotalInchesMetric | snowflake_data/views.py:181-184 | With a faithful warehouse, `total_inches` is None unless the summed length is positive, and then holds that sum. |
| Backend.FavoriteMonthMetric | snowflake_data/views.py:191-194 | With a faithful warehouse, `favorite_month` is None exactly when the customer has no lines. Otherwise it is a month visited as often as any other, with that visit count. |
| Api.RecordToJs | snowflake_data/views.py:298 | The JSON object of a row has the dict's keys, each holding its cell's JSON value. |
| Api.ToHttp | frontend/src/components/Login/index.jsx:24-30 | A 2xx response resolves with the rendered body; any other status rejects with that status. |
| Api.LookupOutcomes | snowflake_data/views.py:294-298 | A non-empty phone lookup is rejected with 404 exactly when the query found no row, and resolves, with the first row, exactly when it found one. |
| Api.MetricsAlwaysResolve | snowflake_data/views.py:169-196 | A metrics request with a non-empty key always resolves with an object keyed by the metrics that did not raise. |
| ApiService.Settle | frontend/src/services/api.js:5-21 | A helper resolves with the data exactly when the request succeeded, and otherwise rejects with its own fixed message. |
| ApiService.GetCustomers | frontend/src/services/api.js:5-12 | Sends one customers request and settles with "Failed to fetch customers" on failure. |
| ApiService.GetCustomerMetrics | frontend/src/services/api.js:14-21 | Sends one metrics request with the key converted to text, and settles with "Failed to fetch customer metrics" on failure. |
| Browser.LocalStorage.GetItem | frontend/src/components/CustomerDashboard/index.jsx:86 | `getItem` gives the stored value exactly when the key has an entry. |
| Browser.LocalStorage.SetItem | frontend/src/components/Login/index.jsx:26 | `setItem` stores the value under the key, replacing any earlier value. |
| Browser.LocalStorage.RemoveItem | frontend/src/components/CustomerDashboard/index.jsx:112 | `removeItem` drops the key's entry and keeps the others. |
| Browser.Navigator.Navigate | frontend/src/components/CustomerDashboard/index.jsx:88 | Appends the route to the routes visited. |
| Browser.HttpClient.Get | frontend/src/components/CustomerDashboard/index.jsx:100 | Records the request as sent and returns the server's outcome for it. |
| JsValues.Or | frontend/src/components/CustomerDashboard/index.jsx:242 | The logical-or operator gives its left operand when that is truthy, and its right operand otherwise. |
| JsValues.Prop | frontend/src/components/CustomerDashboard/index.jsx:242 | `v?.k` is the object's own property k, and undefined for a missing key or a non-object. |
| JsValues.ToText | frontend/src/components/CustomerDashboard/index.jsx:243 | Converting to text leaves a string unchanged and turns an integer into its decimal text. |
| JsValues.CountTextOfFalsy | frontend/src/components/CustomerDashboard/index.jsx:243 | A count written into a template literal with the 0 fallback reads "0" for every falsy value. |
| JsValues.CountTextOfNumber | frontend/src/components/CustomerDashboard/index.jsx:243 | A number count with the 0 fallback reads as its decimal text, 0 included. |
| JsValues.TrimStart | frontend/src/components/CustomerDashboard/index.jsx:74 | The leading-white-space trim of `parseInt` gives a suffix that does not start with white space. |
| JsValues.ParseIntOfDecimal | frontend/src/components/CustomerDashboard/index.jsx:74 | `parseInt` reads back the decimal text of every integer, negative ones included. |
| JsValues.ParseIntOfNatural | frontend/src/components/CustomerDashboard/index.jsx:74 | `parseInt` reads back the decimal text of every non-negative integer. |
| JsValues.ParseIntOfNegative | frontend/src/components/CustomerDashboard/index.jsx:74 | `parseInt` reads back the minus sign and digits of every negative integer. |
| JsValues.NegativeText | frontend/src/components/CustomerDashboard/index.jsx:74 | The text of a negative integer starts with a minus sign, which the white-space trim keeps, followed by the digits of its magnitude. |
| JsValues.ParseIntOfMinus | frontend/src/components/CustomerDashboard/index.jsx:74 | After a leading minus sign, `parseInt` is the negated value of the digits that follow, and NaN when no digits follow. |
| JsValues.ParseIntOfFalsy | frontend/src/components/CustomerDashboard/index.jsx:74 | The text of a falsy value (undefined, null, false, 0 or "") parses as NaN or as 0. |
| JsValues.ParseIntOfZero | frontend/src/components/CustomerDashboard/index.jsx:74 | The text of the number 0 parses as 0. |
| JsValues.ParseIntOfKeyword | frontend/src/components/CustomerDashboard/index.jsx:74 | The texts "undefined", "null" and "false" parse as NaN. |
| JsValues.ParseIntOfNonDigit | frontend/src/components/CustomerDashboard/index.jsx:74 | `parseInt` gives NaN for text that starts with neither white space, a sign nor a digit. |
| JsValues.ChildrenText | frontend/src/components/CustomerDashboard/index.jsx:195 | Sibling children render exactly when each of them does; a plain object is not a valid child. |
| JsValues.ChildrenTextConcat | frontend/src/components/CustomerDashboard/index.jsx:195 | Two runs of siblings render as the concatenation of their texts, and fail when either fails. |
| JsValues.MetricCard | frontend/src/components/CustomerDashboard/index.jsx:17-66 | The card shows the title and the value. The subtitle line is shown exactly when the subtitle is truthy. |
| CustomerDashboard.MonthOfNumberInTable | frontend/src/components/CustomerDashboard/index.jsx:69-74 | A parsed number from 1 to 12 gives that month of the table; the result is always a month of the table or "N/A". |
| CustomerDashboard.MonthName | frontend/src/components/CustomerDashboard/index.jsx:68-75 | The name is never empty, so the card's fallback to 'N/A' never replaces it. |
| CustomerDashboard.MonthNameInTable | frontend/src/components/CustomerDashboard/index.jsx:68-75 | getMonthName always gives a month of the table or "N/A". |
| CustomerDashboard.MonthNameOfNumber | frontend/src/components/CustomerDashboard/index.jsx:68-75 | The integer n gives the n-th month for 1..12 and "N/A" otherwise. |
| CustomerDashboard.MonthNameOfNumberText | frontend/src/components/CustomerDashboard/index.jsx:74 | The decimal text of a month number gives the same name as the number. |
| CustomerDashboard.MonthNameOfFalsy | frontend/src/components/CustomerDashboard/index.jsx:74 | A missing, null, false, 0 or empty month gives "N/A". |
| CustomerDashboard.MonthNameOfMarch | frontend/src/components/CustomerDashboard/index.jsx:74 | 3 gives the third name of the table, "March". |
| CustomerDashboard.MonthNameOfThirteen | frontend/src/components/CustomerDashboard/index.jsx:74 | 13 gives "N/A". |
| CustomerDashboard.MonthNameOfWord | frontend/src/components/CustomerDashboard/index.jsx:74 | "abc" gives "N/A". |
| CustomerDashboard.GreetingText | frontend/src/components/CustomerDashboard/index.jsx:195 | For a first name s the heading reads "HEY " + s + "!". |
| CustomerDashboard.DashboardCards | frontend/src/components/CustomerDashboard/index.jsx:239-264 | The dashboard shows five cards. |
| CustomerDashboard.SandwichCard | frontend/src/components/CustomerDashboard/index.jsx:240-244 | The sandwich name, or "N/A" when it is falsy, and "Ordered n times". |
| CustomerDashboard.SideCard | frontend/src/components/CustomerDashboard/index.jsx:245-249 | The side name, or "N/A", and "Ordered n times". |
| CustomerDashboard.InchesCard | frontend/src/components/CustomerDashboard/index.jsx:250-253 | "n inches", and no subtitle. |
| CustomerDashboard.StoreCard | frontend/src/components/CustomerDashboard/index.jsx:254-258 | The city, or "N/A", and "Your go-to spot with n visits". |
| CustomerDashboard.MonthCard | frontend/src/components/CustomerDashboard/index.jsx:259-263 | The month's name and "You visited n times"; the outer 'N/A' fallback never applies. |
| CustomerDashboard.MonthCardMissing | frontend/src/components/CustomerDashboard/index.jsx:261 | A missing (falsy) month makes the month card read "N/A". |
| CustomerDashboard.MonthCardNamed | frontend/src/components/CustomerDashboard/index.jsx:261 | A month n in 1..12 makes the month card read the n-th name. |
| CustomerDashboard.SandwichCardMissing | frontend/src/components/CustomerDashboard/index.jsx:240-244 | A metrics body with no favorite sandwich shows "N/A", "Ordered 0 times". |
| CustomerDashboard.SandwichCardShows | frontend/src/components/CustomerDashboard/index.jsx:240-244 | A stored sandwich name and count n show the name ("N/A" for an empty name) and "Ordered n times". |
| CustomerDashboard.MonthCardOfNumber | frontend/src/components/CustomerDashboard/index.jsx:259-263 | A stored month number and visit count n show that month's name and "You visited n times". |
| CustomerDashboard.DashboardDefaults | frontend/src/components/CustomerDashboard/index.jsx:240-263 | Missing counts, totals and visit counts read 0 in every card. |
| CustomerDashboard.Render | frontend/src/components/CustomerDashboard/index.jsx:116-137 | A spinner exactly while loading. Otherwise the alert exactly when the error is truthy. Otherwise the greeting and the five cards. |
| CustomerDashboard.Dashboard.constructor | frontend/src/components/CustomerDashboard/index.jsx:78-81 | No customer, no metrics, loading, no error. |
| CustomerDashboard.Dashboard.Mount | frontend/src/components/CustomerDashboard/index.jsx:85-95 | With no stored record it navigates to "/" and sends nothing. With a record it sets `customerData` and sends exactly one metrics request keyed by `CUSTOMER_KEY`. A stored null throws before any request. |
| CustomerDashboard.Dashboard.FetchMetrics | frontend/src/components/CustomerDashboard/index.jsx:97-109 | Success sets the metrics. Failure sets "Failed to load metrics" and keeps the metrics. Loading is false either way. |
| CustomerDashboard.Dashboard.HandleLogout | frontend/src/components/CustomerDashboard/index.jsx:111-114 | Removes the stored record and navigates to "/". |
| CustomerDashboard.LogoutThenRemount | frontend/src/components/CustomerDashboard/index.jsx:85-114 | After a logout, a new dashboard's mount redirects to "/" again and fetches nothing. |
| Login.LookupErrorMessage | frontend/src/components/Login/index.jsx:29-35 | The not-found text exactly for status 404; the generic text for every other status and for no response. |
| Login.LoginView.constructor | frontend/src/components/Login/index.jsx:15-16 | Empty phone, empty error. |
| Login.LoginView.EditPhone | frontend/src/components/Login/index.jsx:105 | The phone becomes the typed value. |
| Login.LoginView.BeginSubmit | frontend/src/components/Login/index.jsx:19-21 | Submitting clears the error first, so the error alert (index.jsx:111) disappears. |
| Login.LoginView.FinishSubmit | frontend/src/components/Login/index.jsx:23-35 | Truthy data is stored under "customerData", overwriting, and the view navigates to "/metrics". Falsy data changes nothing. A failure sets the message for its status, so the error alert (index.jsx:111) shows, and neither stores nor navigates. |
| Login.LoginView.HandleSubmit | frontend/src/components/Login/index.jsx:19-36 | One lookup with the phone exactly as typed. Afterwards the error is empty unless the lookup failed, and the error alert (index.jsx:111) shows exactly when it failed. |
| Login.LoginView.SubmitForm | frontend/src/components/Login/index.jsx:100-108 | The `required` field blocks submitting an empty phone; any other phone is submitted. |
| CustomerSelect.MenuItemOf | frontend/src/components/CustomerMetrics.jsx:69-75 | An option's value is `CUSTOMER_KEY` and its text is first name, space, last name; a null customer cannot render. |
| CustomerSelect.MenuItems | frontend/src/components/CustomerMetrics.jsx:69-76 | One option per customer, in order, exactly when the list is an array without null elements. |
| CustomerSelect.RenderPicker | frontend/src/components/CustomerMetrics.jsx:81-91 | The alert exactly when the error is truthy and the progress indicator exactly while loading. The cards appear exactly when the metrics are truthy and loading is over. |
| CustomerMetricsPage.PageCards | frontend/src/components/CustomerMetrics.jsx:91-172 | Five cards; the inches and store cards have no subtitle. |
| CustomerMetricsPage.CountChildText | frontend/src/components/CustomerMetrics.jsx:104 | A count with the 0 fallback rendered as a React child reads like the template literal for a number, a string or a missing value. |
| CustomerMetricsPage.CountChildTextDiffers | frontend/src/components/CustomerMetrics.jsx:104 | For `true` they differ: React renders nothing where the template literal writes "true". |
| CustomerMetricsPage.SandwichCardText | frontend/src/components/CustomerMetrics.jsx:97-105 | A named sandwich with count n reads the name and "Ordered n times". |
| CustomerMetricsPage.PageNameDefaults | frontend/src/components/CustomerMetrics.jsx:101-163 | A missing sandwich, side or month reads "N/A". |
| CustomerMetricsPage.PageCountDefaults | frontend/src/components/CustomerMetrics.jsx:104-121 | Missing sandwich and side counts read "Ordered 0 times". |
| CustomerMetricsPage.PageTotalDefaults | frontend/src/components/CustomerMetrics.jsx:135-166 | A missing total, store visit count or month visit count reads 0. |
| CustomerMetricsPage.CustomerMetrics.constructor | frontend/src/components/CustomerMetrics.jsx:18-22 | Empty customer list, empty selection, no metrics, not loading, no error. |
| CustomerMetricsPage.CustomerMetrics.FetchCustomers | frontend/src/components/CustomerMetrics.jsx:25-37 | One customers request. The customers become `results`, or `[]` when that is falsy. A failure, or a null body, sets "Failed to load customers" and keeps the list. |
| CustomerMetricsPage.CustomerMetrics.BeginSelection | frontend/src/components/CustomerMetrics.jsx:41-44 | Selecting sets the selected key and loading, and clears the error. |
| CustomerMetricsPage.CustomerMetrics.FinishSelection | frontend/src/components/CustomerMetrics.jsx:46-56 | Success replaces the metrics. Failure sets "Failed to load metrics" and keeps the metrics. Loading ends either way. |
| CustomerMetricsPage.CustomerMetrics.HandleCustomerChange | frontend/src/components/CustomerMetrics.jsx:40-57 | One metrics request keyed by the selected value. On failure the earlier cards stay on screen under the alert. |
| CustomerMetricsCards.CardsOf | frontend/src/components/CustomerMetrics/index.jsx:106-146 | Five cards. |
| CustomerMetricsCards.SandwichCard | frontend/src/components/CustomerMetrics/index.jsx:109-113 | The sandwich name, or "N/A" when it is falsy, and the subtitle "Ordered n times". |
| CustomerMetricsCards.SideCard | frontend/src/components/CustomerMetrics/index.jsx:117-121 | The side name, or "N/A" when it is falsy, and the subtitle "Ordered n times". |
| CustomerMetricsCards.InchesCard | frontend/src/components/CustomerMetrics/index.jsx:125-128 | No subtitle is given, so none is shown. |
| CustomerMetricsCards.StoreCard | frontend/src/components/CustomerMetrics/index.jsx:132-135 | "n visits", not the city, and no subtitle. |
| CustomerMetricsCards.MonthCard | frontend/src/components/CustomerMetrics/index.jsx:139-143 | The stored month or "N/A", and "n visits". |
| CustomerMetricsCards.MissingCountsShowZero | frontend/src/components/CustomerMetrics/index.jsx:111-142 | Each falsy count reads 0 on its own card, whatever the other fields hold: the sandwich and side counts ("Ordered 0 times"), the inches ("0 inches"), the store visits ("0 visits") and the month visits ("0 visits"). |
| CustomerMetricsCards.MonthShownAsNumber | frontend/src/components/CustomerMetrics/index.jsx:141 | Month 3 is shown as "3", not as "March" as the dashboard shows it. |
| CustomerMetricsCards.CustomerMetrics.constructor | frontend/src/components/CustomerMetrics/index.jsx:37-41 | Empty customer list, empty selection, no metrics, not loading, no error. |
| CustomerMetricsCards.CustomerMetrics.FetchCustomers | frontend/src/components/CustomerMetrics/index.jsx:43-54 | The customers become `results` with no fallback. A body without it leaves the drop-down unrenderable. A rejection or a null body sets "Failed to load customers". |
| CustomerMetricsCards.CustomerMetrics.BeginSelection | frontend/src/components/CustomerMetrics/index.jsx:57-60 | Selecting sets the selected key and loading, and clears the error. |
| CustomerMetricsCards.CustomerMetrics.FinishSelection | frontend/src/components/CustomerMetrics/index.jsx:62-69 | Success replaces the metrics. Rejection sets "Failed to load customer metrics" and keeps the metrics. Loading ends either way. |
| CustomerMetricsCards.CustomerMetrics.HandleCustomerChange | frontend/src/components/CustomerMetrics/index.jsx:56-70 | One metrics request keyed by the selected value, with the outcomes above. |
| EndToEnd.MetricField | snowflake_data/views.py:196 | A nested property of the metrics body is the cell of that metric's record, and undefined when the metric is missing or None. |
| EndToEnd.FavoriteProductFields | snowflake_data/views.py:172-179 | With a faithful warehouse, the favorite-sandwich (or side) fields of the metrics body are undefined for a customer without such lines. Otherwise they hold a most-ordered product and its positive count. |
| EndToEnd.SandwichCardOfFields | frontend/src/components/CustomerDashboard/index.jsx:240-244 | Fields as above make the sandwich card read "N/A" and "Ordered 0 times", or a most-ordered sandwich and "Ordered n times" with its count. |
| EndToEnd.DashboardSandwichCard | frontend/src/components/CustomerDashboard/index.jsx:240-244 | With a faithful warehouse: "N/A" and "Ordered 0 times" for a customer without sandwiches. Otherwise a most-ordered sandwich and its count. |
| EndToEnd.TotalInchesField | snowflake_data/views.py:181-184 | With a faithful warehouse, the total-inches field is the positive summed length, and undefined otherwise. |
| EndToEnd.InchesCardOfField | frontend/src/components/CustomerDashboard/index.jsx:250-253 | That field makes the inches card read the total, or "0 inches". |
| EndToEnd.DashboardInchesCard | frontend/src/components/CustomerDashboard/index.jsx:250-253 | With a faithful warehouse: the positive summed length, or "0 inches". |
| EndToEnd.FavoriteMonthFields | snowflake_data/views.py:191-194 | With a faithful warehouse, the month field is undefined for a customer without lines. Otherwise the fields hold a busiest month and its visit count. |
| EndToEnd.MonthCardOfFields | frontend/src/components/CustomerDashboard/index.jsx:259-263 | Fields as above make the month card read "N/A", or the name of a busiest month and "You visited n times". |
| EndToEnd.DashboardMonthCard | frontend/src/components/CustomerDashboard/index.jsx:259-263 | With a faithful warehouse: "N/A" for a customer without lines. Otherwise the name of a busiest month and its visit count. |
| EndToEnd.LoginOutcomes | frontend/src/components/Login/index.jsx:23-35 | An unknown phone shows the not-found text, and a raising query shows the generic one. A found customer resolves with truthy data. |
| EndToEnd.PickerOptions | frontend/src/components/CustomerMetrics.jsx:28-30 | A raising customers query is a 500 rejection. Otherwise there is one option per customer row, in order, and the empty-list fallback never applies. |
| EndToEnd.SignInThenOpenDashboard | frontend/src/components/Login/index.jsx:19-36 | Signing in stores the record and navigates to "/metrics". The dashboard then greets "HEY first!" and requests the metrics of the customer's key. |
| EndToEnd.SignInAsSam | frontend/src/components/Login/index.jsx:24-28 | Phone 5551234567, key 42 and name Sam give "HEY Sam!" and a metrics request for "42". |

## Left out

- Snowflake access is not modelled: connecting, cursors and reading the environment (snowflake_data/views.py:25-35) are I/O. Each query is an input outcome: rows and description, or the exception's text.
- `fetch_from_snowflake` and `favorite_sandwiches` pass raw tuples through and have no logic of their own.
- The most-visited-store query is modelled only as "first row or None". Its outer `GROUP BY ALL` groups by city and it has no `ORDER BY`, so the first row is not guaranteed to be the most-visited store.
- Order lines are the already-joined rows. The queries use inner joins, so a fact row without a matching product, store or date takes no part; the model assumes every line has all three.
- Django REST framework's JSON encoding of `Decimal` and other Snowflake types is not modelled. Cells are NULL, integers or text, and JavaScript numbers are unbounded integers.
- `JSON.stringify` and `JSON.parse` around `localStorage` are modelled as the identity.
- URL encoding of the phone and the key in the query string is not modelled. The text interpolated into the URL is the parameter's value.
- Every customer key is an integer whose query parameter is its decimal text. The warehouse's coercion of other texts is not modelled.
- Asynchronous interleaving is not modelled (state updates after unmount, overlapping submissions or selections). Each request settles atomically between its handler's two halves.
- `console.log` and `console.error`, MUI layout and styling, and built-in properties of strings and arrays such as `length` are not modelled.
- `models.py`, `serializers.py` and `urls.py` are framework configuration and not part of this model. Of `App.jsx` only the routes "/" and "/metrics" appear.
- Errors thrown while rendering (invalid children, `map` on a non-array) are modelled as a None result, not as React's error handling.
- Login.LoginView.SubmitForm: the phone field carries the HTML `required` attribute (frontend/src/components/Login/index.jsx:108). An empty phone is therefore never submitted. This follows the code, although the portal's documentation says the phone gets no client-side validation; `HandleSubmit` itself sends the phone exactly as typed.
