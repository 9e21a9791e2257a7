/** The importer's product validation rules: four field checks that must all
    pass, each failing check contributing its own issue. */
module ProductSchema {
  import opened Wrappers
  import opened JsValues

  /** A row as the parsers hand it to the validator: two strings and two
      numbers. */
  datatype ParsedRow = ParsedRow(name: string, description: string, price: Num, quantity: Num)

  /** A row that passed validation. The quantity is a whole number; the price
      is positive (it may be the positive infinity, which the rules accept). */
  datatype ProductInput = ProductInput(name: string, description: string, price: Num, quantity: int)

  /** A validated row plus the identity and timestamps the importer attaches.
      Timestamps are ISO strings; `updatedAt` may be null. */
  datatype ProductRecord = ProductRecord(
    id: string, name: string, description: string, price: Num, quantity: int,
    createdAt: string, updatedAt: Option<string>)
  {
    function Input(): ProductInput
    {
      ProductInput(name, description, price, quantity)
    }
  }

  /** One failed check of the schema. */
  datatype Issue =
    | NameRequired
    | DescriptionRequired
    | PriceNotNumber
    | PriceNotPositive
    | QuantityNotNumber
    | QuantityNotInteger
    | QuantityNegative

  function Message(i: Issue): string
  {
    match i
    case NameRequired => "Name is required"
    case DescriptionRequired => "Description is required"
    case PriceNotNumber => "Expected number, received nan"
    case PriceNotPositive => "Price must be positive"
    case QuantityNotNumber => "Expected number, received nan"
    case QuantityNotInteger => "Expected integer, received float"
    case QuantityNegative => "Quantity must be >= 0"
  }

  predicate IsPositive(n: Num)
  {
    n.PosInf? || (n.Finite? && n.r > 0.0)
  }

  predicate IsInteger(n: Num)
  {
    n.Finite? && n.r == n.r.Floor as real
  }

  predicate AtLeastZero(n: Num)
  {
    n.PosInf? || (n.Finite? && n.r >= 0.0)
  }

  /** What the schema accepts, stated field by field. */
  predicate Acceptable(row: ParsedRow)
  {
    |row.name| >= 1 && |row.description| >= 1 && IsPositive(row.price)
    && IsInteger(row.quantity) && row.quantity.r >= 0.0
  }

  predicate IsNameIssue(i: Issue) { i.NameRequired? }
  predicate IsDescriptionIssue(i: Issue) { i.DescriptionRequired? }
  predicate IsPriceIssue(i: Issue) { i.PriceNotNumber? || i.PriceNotPositive? }
  predicate IsQuantityIssue(i: Issue) { i.QuantityNotNumber? || i.QuantityNotInteger? || i.QuantityNegative? }

  function NameIssues(name: string): (r: seq<Issue>)
    ensures forall i :: i in r ==> IsNameIssue(i)
    ensures NameRequired in r <==> name == ""
    ensures r == [] <==> |name| >= 1
  {
    if |name| >= 1 then [] else [NameRequired]
  }

  function DescriptionIssues(description: string): (r: seq<Issue>)
    ensures forall i :: i in r ==> IsDescriptionIssue(i)
    ensures DescriptionRequired in r <==> description == ""
    ensures r == [] <==> |description| >= 1
  {
    if |description| >= 1 then [] else [DescriptionRequired]
  }

  /** A `NaN` fails the number type check, which stops the remaining checks
      of the field. */
  function PriceIssues(price: Num): (r: seq<Issue>)
    ensures forall i :: i in r ==> IsPriceIssue(i)
    ensures PriceNotNumber in r <==> price.NaN?
    ensures PriceNotPositive in r <==> !price.NaN? && !IsPositive(price)
    ensures r == [] <==> IsPositive(price)
  {
    if price.NaN? then [PriceNotNumber]
    else if IsPositive(price) then [] else [PriceNotPositive]
  }

  /** Past the type check, both checks of the field run and each failing one
      adds its issue. */
  function QuantityIssues(quantity: Num): (r: seq<Issue>)
    ensures forall i :: i in r ==> IsQuantityIssue(i)
    ensures QuantityNotNumber in r <==> quantity.NaN?
    ensures QuantityNotInteger in r <==> !quantity.NaN? && !IsInteger(quantity)
    ensures QuantityNegative in r <==> !quantity.NaN? && !AtLeastZero(quantity)
    ensures r == [] <==> IsInteger(quantity) && quantity.r >= 0.0
  {
    if quantity.NaN? then [QuantityNotNumber]
    else (if IsInteger(quantity) then [] else [QuantityNotInteger])
         + (if AtLeastZero(quantity) then [] else [QuantityNegative])
  }

  /** The issues of all four fields, in field order. */
  function Issues(row: ParsedRow): (r: seq<Issue>)
    ensures r == [] <==> Acceptable(row)
  {
    NameIssues(row.name) + DescriptionIssues(row.description)
    + PriceIssues(row.price) + QuantityIssues(row.quantity)
  }

  /** The text fields' issues are reported exactly when the field is empty. */
  lemma TextIssuesReported(row: ParsedRow)
    ensures NameRequired in Issues(row) <==> row.name == ""
    ensures DescriptionRequired in Issues(row) <==> row.description == ""
  {
    var n, d := NameIssues(row.name), DescriptionIssues(row.description);
    var p, q := PriceIssues(row.price), QuantityIssues(row.quantity);
    assert Issues(row) == n + d + (p + q);
    assert NameRequired !in d && NameRequired !in p + q;
    assert DescriptionRequired !in n && DescriptionRequired !in p + q;
  }

  /** The price's issues are reported exactly when its checks fail. */
  lemma PriceIssuesReported(row: ParsedRow)
    ensures PriceNotNumber in Issues(row) <==> row.price.NaN?
    ensures PriceNotPositive in Issues(row) <==> !row.price.NaN? && !IsPositive(row.price)
  {
    var n, d := NameIssues(row.name), DescriptionIssues(row.description);
    var p, q := PriceIssues(row.price), QuantityIssues(row.quantity);
    assert Issues(row) == (n + d) + p + q;
    assert PriceNotNumber !in n + d && PriceNotNumber !in q;
    assert PriceNotPositive !in n + d && PriceNotPositive !in q;
  }

  /** The quantity's issues are reported exactly when its checks fail. */
  lemma QuantityIssuesReported(row: ParsedRow)
    ensures QuantityNotNumber in Issues(row) <==> row.quantity.NaN?
    ensures QuantityNotInteger in Issues(row) <==> !row.quantity.NaN? && !IsInteger(row.quantity)
    ensures QuantityNegative in Issues(row) <==> !row.quantity.NaN? && !AtLeastZero(row.quantity)
  {
    var n, d := NameIssues(row.name), DescriptionIssues(row.description);
    var p, q := PriceIssues(row.price), QuantityIssues(row.quantity);
    var front := n + d + p;
    assert Issues(row) == front + q;
    assert QuantityNotNumber !in front && QuantityNotInteger !in front && QuantityNegative !in front;
  }

  /** `productSchema.parse(row)`: the validated product, or the list of
      issues. Values are copied, never rounded or coerced. */
  function Validate(row: ParsedRow): (r: Either<seq<Issue>, ProductInput>)
    ensures r.Right? <==> Acceptable(row)
    ensures r.Right? ==>
      r.value.name == row.name && r.value.description == row.description
      && r.value.price == row.price && r.value.quantity as real == row.quantity.r
    ensures r.Left? ==> |r.error| >= 1
    ensures r.Left? ==> (NameRequired in r.error <==> row.name == "")
    ensures r.Left? ==> (DescriptionRequired in r.error <==> row.description == "")
    ensures r.Left? ==> (PriceNotNumber in r.error <==> row.price.NaN?)
    ensures r.Left? ==> (PriceNotPositive in r.error <==> !row.price.NaN? && !IsPositive(row.price))
    ensures r.Left? ==> (QuantityNotNumber in r.error <==> row.quantity.NaN?)
    ensures r.Left? ==> (QuantityNotInteger in r.error <==> !row.quantity.NaN? && !IsInteger(row.quantity))
    ensures r.Left? ==> (QuantityNegative in r.error <==> !row.quantity.NaN? && !AtLeastZero(row.quantity))
  {
    TextIssuesReported(row);
    PriceIssuesReported(row);
    QuantityIssuesReported(row);
    var issues := Issues(row);
    if issues == [] then
      Right(ProductInput(row.name, row.description, row.price, row.quantity.r.Floor))
    else
      Left(issues)
  }

  /** The messages an error row reports. */
  function Messages(issues: seq<Issue>): (ms: seq<string>)
    ensures |ms| == |issues|
    ensures forall i :: 0 <= i < |issues| ==> ms[i] == Message(issues[i])
  {
    seq(|issues|, i requires 0 <= i < |issues| => Message(issues[i]))
  }
}
