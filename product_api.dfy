/** The decision logic of the product-creation endpoint (create_product, POST
    /api/products): the required-field check, the Product and Inventory records built
    from the request body, the database-session calls the handler issues, and the
    response it selects.

    The id the database assigns on flush is an input, and so is the exception, if any,
    that one of the handler's steps raises: which step raised and its text. */
module ProductApi {

  datatype Option<T> = None | Some(value: T)

  /** A JSON value as the request parser delivers it. */
  datatype Value =
    | Null
    | Bool(b: bool)
    | Int(i: int)
    | Float(f: real)
    | Str(s: string)
    | Array(items: seq<Value>)
    | Object(fields: map<string, Value>)

  /** The parsed request body: absent, or a JSON object. */
  type Body = Option<map<string, Value>>

  /** The keys the handler demands, in the order it tests them. */
  const Required: seq<string> := ["name", "sku", "price", "warehouse_id", "initial_quantity"]

  const MissingFieldsMessage := "Missing required fields"

  /** The product row: its four columns as the body supplies them. */
  datatype Product = Product(name: Value, sku: Value, price: Value, warehouseId: Value)

  /** The inventory row that records the product's initial stock in its warehouse. */
  datatype Inventory = Inventory(productId: int, warehouseId: Value, quantity: Value)

  datatype Record = ProductRecord(product: Product) | InventoryRecord(inventory: Inventory)

  /** A call the handler makes on the database session. */
  datatype SessionCall = Add(record: Record) | Flush | Commit | Rollback

  /** The steps of the handler's try block that can raise. Respond is the building of
      the 201 answer after the commit: reading the id of a product the commit expired
      reloads its row, and that read can raise. */
  datatype Step =
    | BuildProduct | AddProduct | FlushSession | BuildInventory | AddInventory | CommitSession | Respond

  /** An exception raised at a step, with its text. */
  datatype Failure = Failure(at: Step, message: string)

  datatype Response = BadRequest | Created(productId: int) | ServerError(message: string)
  {
    /** The HTTP status the handler pairs with the response body. */
    function Status(): int
    {
      match this
      case BadRequest => 400
      case Created(_) => 201
      case ServerError(_) => 500
    }

    /** The JSON object the handler returns. */
    function Json(): map<string, Value>
    {
      match this
      case BadRequest => map["error" := Str(MissingFieldsMessage)]
      case Created(id) => map["message" := Str("Product created"), "product_id" := Int(id)]
      case ServerError(msg) => map["error" := Str(msg)]
    }
  }

  /** What one request does: the session calls it issues, in order, and its response. */
  datatype Outcome = Outcome(response: Response, calls: seq<SessionCall>)

  // ---------------------------------------------------------------------------
  // Validation

  /** all(k in data for k in keys), evaluated left to right. */
  function AllPresent(keys: seq<string>, data: map<string, Value>): (ok: bool)
    ensures ok <==> forall i :: 0 <= i < |keys| ==> keys[i] in data
  {
    if keys == [] then true
    else if keys[0] !in data then false
    else AllPresent(keys[1..], data)
  }

  /** Python truthiness of the body: absent and the empty object are false. */
  predicate Truthy(body: Body)
  {
    body.Some? && |body.value| != 0
  }

  /** The guard `not data or not all(...)`, negated: the body may proceed. */
  function HasRequiredFields(body: Body): (ok: bool)
    ensures ok <==> body.Some? && forall k :: k in Required ==> k in body.value
  {
    if body.None? then false
    else
      NonEmptyWhenKeyPresent(body.value, "name");
      Truthy(body) && AllPresent(Required, body.value)
  }

  /** An object holding a key is truthy, so the truthiness test never decides alone. */
  lemma NonEmptyWhenKeyPresent(data: map<string, Value>, k: string)
    ensures k in data ==> |data| != 0
  {
  }

  // ---------------------------------------------------------------------------
  // Record construction and the handler

  function NewProduct(data: map<string, Value>): Product
    requires forall k :: k in Required ==> k in data
  {
    Product(data["name"], data["sku"], data["price"], data["warehouse_id"])
  }

  function NewInventory(data: map<string, Value>, productId: int): Inventory
    requires forall k :: k in Required ==> k in data
  {
    Inventory(productId, data["warehouse_id"], data["initial_quantity"])
  }

  /** The session calls of a request that raises nothing. */
  function SuccessCalls(data: map<string, Value>, productId: int): seq<SessionCall>
    requires forall k :: k in Required ==> k in data
  {
    [Add(ProductRecord(NewProduct(data))), Flush, Add(InventoryRecord(NewInventory(data, productId))), Commit]
  }

  /** How many of those calls had been issued when a step raised; a failing call
      counts as issued. */
  function CallsIssued(at: Step): (n: nat)
    ensures n <= 4
  {
    match at
    case BuildProduct => 0
    case AddProduct => 1
    case FlushSession => 2
    case BuildInventory => 2
    case AddInventory => 3
    case CommitSession => 4
    case Respond => 4
  }

  /** create_product: validate, build and stage the two rows, commit; on an exception
      roll back and report its text. */
  function CreateProduct(body: Body, newProductId: int, failure: Option<Failure>): (out: Outcome)
    ensures out.response.BadRequest? <==> !HasRequiredFields(body)
    ensures out.response.Created? <==> HasRequiredFields(body) && failure.None?
    ensures out.response.ServerError? <==> HasRequiredFields(body) && failure.Some?
  {
    if !HasRequiredFields(body) then
      Outcome(BadRequest, [])
    else
      var calls := SuccessCalls(body.value, newProductId);
      match failure
      case None => Outcome(Created(newProductId), calls)
      case Some(f) => Outcome(ServerError(f.message), calls[..CallsIssued(f.at)] + [Rollback])
  }

  // ---------------------------------------------------------------------------
  // Properties

  /** A missing or empty body is answered 400 without touching the session. */
  lemma FalsyBodyRejected(body: Body, newProductId: int, failure: Option<Failure>)
    requires !Truthy(body)
    ensures var out := CreateProduct(body, newProductId, failure);
      && out.response.Status() == 400
      && out.response.Json() == map["error" := Str(MissingFieldsMessage)]
      && out.calls == []
  {
  }

  /** A body lacking any required key is answered 400, and no Product or Inventory is
      built or added; a body holding them all is never answered 400. */
  lemma {:induction false} MissingKeyRejected(body: Body, newProductId: int, failure: Option<Failure>)
    ensures var out := CreateProduct(body, newProductId, failure);
      (out.response.Status() == 400) <==> (body.None? || exists k :: k in Required && k !in body.value)
    ensures var out := CreateProduct(body, newProductId, failure);
      out.response.Status() == 400 ==> out.response == BadRequest && out.calls == []
  {
  }

  /** Validation looks at which required keys are present and nothing else: extra keys
      and the values themselves do not matter. */
  lemma ValidationIgnoresValuesAndExtraKeys(data1: map<string, Value>, data2: map<string, Value>)
    requires forall k :: k in Required ==> (k in data1 <==> k in data2)
    ensures HasRequiredFields(Some(data1)) == HasRequiredFields(Some(data2))
  {
  }

  /** With every required key present and no exception, the Product carries the body's
      name, sku, price and warehouse_id, the Inventory points at the new product id
      with the body's warehouse_id and initial_quantity, both are added (the product
      first, flushed before the inventory is built), the session is committed, and the
      answer is 201 with the new product id. */
  lemma SuccessfulCreation(data: map<string, Value>, newProductId: int)
    requires forall k :: k in Required ==> k in data
    ensures var out := CreateProduct(Some(data), newProductId, None);
      && out.response.Status() == 201
      && out.response.Json() == map["message" := Str("Product created"), "product_id" := Int(newProductId)]
      && |out.calls| == 4
      && out.calls[0].Add? && out.calls[0].record.ProductRecord?
      && out.calls[0].record.product.name == data["name"]
      && out.calls[0].record.product.sku == data["sku"]
      && out.calls[0].record.product.price == data["price"]
      && out.calls[0].record.product.warehouseId == data["warehouse_id"]
      && out.calls[1] == Flush
      && out.calls[2].Add? && out.calls[2].record.InventoryRecord?
      && out.calls[2].record.inventory.productId == newProductId
      && out.calls[2].record.inventory.warehouseId == data["warehouse_id"]
      && out.calls[2].record.inventory.quantity == data["initial_quantity"]
      && out.calls[3] == Commit
  {
  }

  /** An exception after validation is answered 500 with its text; the session calls
      issued are a prefix of the successful ones, ended by a rollback, and a commit was
      issued only if the exception came at the commit or after it. */
  lemma FailureRollsBack(data: map<string, Value>, newProductId: int, f: Failure)
    requires forall k :: k in Required ==> k in data
    ensures var out := CreateProduct(Some(data), newProductId, Some(f));
      && out.response.Status() == 500
      && out.response.Json() == map["error" := Str(f.message)]
      && |out.calls| >= 1
      && out.calls[|out.calls| - 1] == Rollback
      && var issued := out.calls[..|out.calls| - 1];
         && issued <= SuccessCalls(data, newProductId)
         && (Commit in issued ==> f.at == CommitSession || f.at == Respond)
  {
  }
}
