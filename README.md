# Inventory case study: low-stock alerts and product creation, modelled in Dafny

This project models two small pieces of an inventory back end.

- **Low-stock alerts** (`low_stock_alerts.dfy`, module `LowStockAlerts`):
  `InventoryService.getLowStockAlerts`. It takes the candidate rows the repository
  returns for a company: inventory records at or below their reorder level, joined with
  product, warehouse and supplier. It drops every row whose product has no recent sales
  in the last 30 days. For each remaining row it projects the days until stockout from
  the average daily sales. The result is 999 when that velocity is not positive, and
  otherwise the quotient of quantity by velocity, truncated as Java's `(int)` cast does.
  It copies the product, warehouse, stock, threshold and supplier fields into a
  `LowStockAlertDTO` and appends the alerts in input order.
  - The recent-sales check and the velocity are function parameters (`RecentSales`,
    `SalesVelocity`).
  - The placeholders the service ships with are `StubHasRecentSales` (always true) and
    `StubAverageDailySales` (always 5.0).
  - The behaviour is given twice. `AlertsSpec` is a functional specification:
    filter (`Kept`), then map (`Projected`). `GetLowStockAlerts` is the service's loop,
    with `continue`, a reassigned local `daysUntilStockout` and an alert list grown by
    appending. It is proved equal to the specification.
- **Product creation** (`product_api.dfy`, module `ProductApi`): the decision logic of
  the Flask handler `create_product`.
  - The body is absent or a JSON object (`Option<map<string, Value>>`).
  - Validation rejects a falsy body and any body lacking one of `name`, `sku`, `price`,
    `warehouse_id`, `initial_quantity`.
  - A valid body yields a Product row (name, sku, price, warehouse_id from the body) and
    an Inventory row (the new product id, the body's warehouse_id and initial_quantity).
  - The handler issues the session calls add, flush, add, commit. It answers 201 with
    the product id, or on an exception rolls back and answers 500 with the exception text.
  - Inputs of the model: the id the database assigns on flush, and the exception of the
    try block, if any (the step that raised and its text). The outcome records the
    session calls issued, in order, and the response.

Two details of the alert code shape the model:

- The service sends every non-positive velocity to the sentinel (`avgDailySales > 0`
  fails), so `DaysUntilStockout` accepts any real velocity.
- The `(int)` cast truncates toward zero. For a non-negative quantity that is the floor,
  which `DaysUntilStockout` states, and `TruncateToInt` also covers negative quotients.

## Model

| member | source | states |
|---|---|---|
| `LowStockAlerts.GetLowStockAlerts` | InventoryService.java:17-60 | the service loop returns exactly the filter-then-map specification `AlertsSpec` of its candidate rows |
| `LowStockAlerts.AlertsSpec` | InventoryService.java:17-60 | the alert list is no longer than the candidate list, and no candidates give no alerts |
| `LowStockAlerts.Kept` | InventoryService.java:24-29 | the recent-sales filter keeps at most as many rows as it is given |
| `LowStockAlerts.TruncateToInt` | InventoryService.java:37 | the `(int)` cast truncates toward zero: for x >= 0 the result n is >= 0 with n <= x < n + 1; for x < 0 it is <= 0 with n - 1 < x <= n |
| `LowStockAlerts.DaysUntilStockout` | InventoryService.java:33-38 | velocity not positive gives 999; positive velocity v and quantity q >= 0 give d >= 0 with d*v <= q < (d+1)*v (the floor of q/v); negative q gives the quotient truncated toward zero |
| `LowStockAlerts.Passes` | InventoryService.java:27 | no contract; the recent-sales check on the row's product id with the 30-day window |
| `LowStockAlerts.ToAlert` | InventoryService.java:41-55 | no contract; builds the alert DTO and its supplier sub-record from the row's fields and the projected days |
| `LowStockAlerts.AlertFor` | InventoryService.java:33-55 | no contract; looks up the velocity for the row's product and warehouse, projects the stockout and builds the alert |
| `LowStockAlerts.Projected` | InventoryService.java:24-57 | no contract; one alert per kept row, in order, as the loop's appends produce them |
| `LowStockAlerts.KeptIsFilteredSubsequence` | InventoryService.java:24-29 | the kept rows are the rows at strictly increasing positions, and those positions are exactly the ones whose product has recent sales in the 30-day window |
| `LowStockAlerts.AlertsAreFilteredProjection` | InventoryService.java:24-57 | the k-th alert comes from the k-th passing row, in input order; it copies productId, productName, sku, warehouseId, warehouseName, quantity, reorderLevel and the supplier id, name and email, and carries that row's stockout projection |
| `LowStockAlerts.KeptConcat` | InventoryService.java:24-29 | filtering a concatenation is the concatenation of the filtered parts |
| `LowStockAlerts.ExcludedCandidateContributesNothing` | InventoryService.java:27-29 | removing a row without recent sales from the input leaves the alert list unchanged |
| `LowStockAlerts.KeptCandidateContributesOneAlert` | InventoryService.java:31-57 | a row with recent sales contributes exactly its own alert, between the alerts of the rows before and after it |
| `LowStockAlerts.StubHasRecentSales` | InventoryService.java:63-74 | no contract; the shipped recency check, true for every product and window |
| `LowStockAlerts.StubAverageDailySales` | InventoryService.java:77-93 | no contract; the shipped velocity, 5.0 for every product and warehouse |
| `LowStockAlerts.StubKeepsEverything` | InventoryService.java:63-74 | with the shipped always-true recency check, every row is kept |
| `LowStockAlerts.StubAlerts` | InventoryService.java:63-93 | with the shipped placeholders there is one alert per row, in order, copying its fields, and for quantity >= 0 its days-until-stockout is quantity / 5 |
| `LowStockAlerts.StubExample` | InventoryService.java:92 | with the placeholders, quantity 10 gives 2 days |
| `LowStockAlerts.ThreeCandidateScenario` | InventoryService.java:24-57 | three rows, one without recent sales and one without velocity, give two alerts in input order, with 2 days and the sentinel 999 |
| `ProductApi.AllPresent` | fix_product_api.py:7 | `all(k in data for k in keys)` holds exactly when every listed key is a key of the body |
| `ProductApi.NonEmptyWhenKeyPresent` | fix_product_api.py:7 | a body holding a key is non-empty, so the falsy-body test never rejects a body that has the required keys |
| `ProductApi.Truthy` | fix_product_api.py:7 | no contract; Python truthiness of the body for `not data`: absent and the empty object are false |
| `ProductApi.HasRequiredFields` | fix_product_api.py:6-7 | validation passes exactly when the body is present and holds all five required keys |
| `ProductApi.NewProduct` | fix_product_api.py:12-17 | no contract; builds the Product from the body's name, sku, price and warehouse_id |
| `ProductApi.NewInventory` | fix_product_api.py:24-28 | no contract; builds the Inventory from the new product id and the body's warehouse_id and initial_quantity |
| `ProductApi.SuccessCalls` | fix_product_api.py:19-33 | no contract; the session calls of a request that raises nothing: add product, flush, add inventory, commit |
| `ProductApi.CallsIssued` | fix_product_api.py:10-40 | the count is at most four; the body maps each step to the calls before it, counting the failing call |
| `ProductApi.Response.Status` | fix_product_api.py:8-40 | no contract; the HTTP status paired with each response: 400 (line 8), 201 (line 35), 500 (line 40) |
| `ProductApi.Response.Json` | fix_product_api.py:8-40 | no contract; the JSON object of each response: `{"error": "Missing required fields"}` (line 8), `{"message": "Product created", "product_id": id}` (line 35), `{"error": str(e)}` (line 40) |
| `ProductApi.CreateProduct` | fix_product_api.py:2-40 | the response is 400 exactly when validation fails; 201 exactly when it passes and nothing raises; 500 exactly when it passes and a step raises |
| `ProductApi.FalsyBodyRejected` | fix_product_api.py:7-8 | an absent or empty body gets status 400 with `{"error": "Missing required fields"}` and no session call |
| `ProductApi.MissingKeyRejected` | fix_product_api.py:6-8 | status 400 exactly when the body is absent or lacks a required key, and then no Product or Inventory is built or added |
| `ProductApi.ValidationIgnoresValuesAndExtraKeys` | fix_product_api.py:7 | two bodies with the same required keys present validate alike, whatever their values and other keys |
| `ProductApi.SuccessfulCreation` | fix_product_api.py:12-35 | the Product gets the body's name, sku, price and warehouse_id; the Inventory gets the new product id and the body's warehouse_id and initial_quantity; the calls are add product, flush, add inventory, commit; the response is 201 with `product_id` the new id |
| `ProductApi.FailureRollsBack` | fix_product_api.py:10-40 | an exception after validation gives 500 with its text; the calls issued are a prefix of the successful ones followed by a rollback, and a commit was issued only if the exception came at the commit or after it, while the 201 answer was built |

## Left out

- The repository query `findLowStockItems` and the `InventoryProjection` type are not part of this model. The candidate rows are an input. The model does not assume that they belong to one company or are below their reorder level.
- The queries described in the comments of `hasRecentSales` and `getAverageDailySales` are not code. Both are parameters, and the shipped constant bodies are one instance of each.
- LowStockAlerts.TruncateToInt: the quotient `item.getQuantity() / avgDailySales` is exact over reals (no IEEE-754 rounding, NaN or infinities) and the result is an unbounded int (no clamp at ±2^31−1), because floating point and the Java int range are outside this model.
- Boxed `Long` ids that could be null are modelled as integers.
- Exceptions thrown by the repository or the collaborators propagate unchanged in the service. The model's collaborators are total functions, so it has no such path.
- The controller's response envelope (`alerts`, `total_alerts = alerts.size()`) and the Spring wiring are left out. The envelope only wraps the list.
- Lombok's generated builders and accessors are left out. The DTOs are plain datatypes.
- Flask request parsing is left out. A top-level JSON value that is not an object (a list, string or number) is not modelled: for those, `k in data` means something else or raises outside the try block.
- SQLAlchemy semantics are left out: what `add`, `flush`, `commit` and `rollback` do to the database, how flush generates the id, and transactional atomicity. The model records which calls the handler makes, takes the generated id as an input, and assumes `rollback` does not raise (if it did, the exception would leave the handler and the framework would answer with its own error page rather than `{"error": str(e)}`).
