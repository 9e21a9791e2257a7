/** The DynamoDB mappers: an entity is stored as a flat item whose dates are
    ISO text, and read back by parsing that text. Reading builds a new
    entity object; writing is a pure function of the entity's state. */
module Mappers {
  import opened Wrappers
  import opened Timestamps
  import opened Entities

  /** `raw.updatedAt ? new Date(raw.updatedAt) : null`: absent or empty
      text (both falsy) gives no date. */
  function UpdatedAtOf(raw: Option<string>): (d: Option<Date>)
    ensures d.None? <==> raw.None? || raw.value == ""
    ensures d.Some? ==> d.value == DateOf(raw.value)
  {
    if raw.Some? && raw.value != "" then Some(DateOf(raw.value)) else None
  }

  /** `updatedAt ? updatedAt.toISOString() : null`: no date gives `null`;
      an invalid date throws. */
  function UpdatedAtText(d: Option<Date>): (r: Either<string, Option<string>>)
    ensures d.None? ==> r == Right(None)
    ensures d.Some? ==> (r.Left? <==> d.value.InvalidDate?)
    ensures d.Some? && r.Right? ==> r.value == Some(DateIso(d.value).value)
  {
    match d
    case None => Right(None)
    case Some(date) =>
      match DateIso(date)
      case Left(e) => Left(e)
      case Right(text) => Right(Some(text))
  }

  /** A valid or absent `updatedAt` survives writing and reading back. */
  lemma UpdatedAtRoundTrip(d: Option<Date>)
    requires d.None? || d.value.Valid?
    ensures UpdatedAtText(d).Right? && UpdatedAtOf(UpdatedAtText(d).value) == d
  {
    if d.Some? {
      DateRoundTrip(d.value);
    }
  }

  /** Dates a mapper can write: `createdAt` and any `updatedAt` are valid. */
  predicate WritableDates(createdAt: Date, updatedAt: Option<Date>)
  {
    createdAt.Valid? && (updatedAt.None? || updatedAt.value.Valid?)
  }

  // ------------------------------------------------------------- products

  /** A stored product: seven flat fields. */
  datatype ProductItem = ProductItem(
    id: string, name: string, description: string, price: real, quantity: int,
    createdAt: string, updatedAt: Option<string>)

  /** The properties `DynamoProductMapper.toDomain` gives a product. */
  function ProductPropsOfItem(raw: ProductItem): (p: ProductProps)
    ensures p.name == raw.name && p.description == raw.description
    ensures p.price == raw.price && p.quantity == raw.quantity
    ensures p.createdAt == DateOf(raw.createdAt) && p.updatedAt == UpdatedAtOf(raw.updatedAt)
  {
    ProductProps(raw.name, raw.description, raw.price, raw.quantity, DateOf(raw.createdAt), UpdatedAtOf(raw.updatedAt))
  }

  /** `DynamoProductMapper.toDomain(raw)`. `createdAt` is always supplied,
      so the clock reading `now` is never used. */
  method ProductToDomain(raw: ProductItem, now: Instant) returns (product: Product)
    ensures fresh(product) && product.id == raw.id && product.props == ProductPropsOfItem(raw)
  {
    var draft := ProductDraft(raw.name, raw.description, raw.price, raw.quantity,
                              Some(DateOf(raw.createdAt)), UpdatedAtOf(raw.updatedAt));
    product := new Product(draft, raw.id, now);
  }

  /** `DynamoProductMapper.toPersistence` on a product with this id and
      these properties: the fields copied, the dates as ISO text; an invalid
      date throws. */
  function PersistProduct(id: string, props: ProductProps): (r: Either<string, ProductItem>)
    ensures r.Left? <==> !WritableDates(props.createdAt, props.updatedAt)
    ensures r.Right? ==>
      r.value.id == id && r.value.name == props.name && r.value.description == props.description
      && r.value.price == props.price && r.value.quantity == props.quantity
      && r.value.createdAt == DateIso(props.createdAt).value
      && r.value.updatedAt == UpdatedAtText(props.updatedAt).value
  {
    match DateIso(props.createdAt)
    case Left(e) => Left(e)
    case Right(createdAt) =>
      match UpdatedAtText(props.updatedAt)
      case Left(e) => Left(e)
      case Right(updatedAt) =>
        Right(ProductItem(id, props.name, props.description, props.price, props.quantity, createdAt, updatedAt))
  }

  function ProductToPersistence(product: Product): Either<string, ProductItem>
    reads product
  {
    PersistProduct(product.id, product.props)
  }

  /** Writing a product and reading it back gives its id and properties. */
  lemma ProductRoundTrip(id: string, props: ProductProps)
    requires WritableDates(props.createdAt, props.updatedAt)
    ensures PersistProduct(id, props).Right?
    ensures PersistProduct(id, props).value.id == id
    ensures ProductPropsOfItem(PersistProduct(id, props).value) == props
  {
    DateRoundTrip(props.createdAt);
    UpdatedAtRoundTrip(props.updatedAt);
  }

  /** An item the mapper wrote is written back unchanged once read. */
  lemma ProductItemRoundTrip(id: string, props: ProductProps)
    requires PersistProduct(id, props).Right?
    ensures var item := PersistProduct(id, props).value;
      PersistProduct(item.id, ProductPropsOfItem(item)) == Right(item)
  {
    ProductRoundTrip(id, props);
  }

  // ------------------------------------------------------------- clients

  /** A stored client: six flat fields. */
  datatype ClientItem = ClientItem(
    id: string, name: string, email: string, password: string,
    createdAt: string, updatedAt: Option<string>)

  /** The properties `DynamoClientMapper.toDomain` gives a client. */
  function ClientPropsOfItem(raw: ClientItem): (p: ClientProps)
    ensures p.name == raw.name && p.email == raw.email && p.password == raw.password
    ensures p.createdAt == DateOf(raw.createdAt) && p.updatedAt == UpdatedAtOf(raw.updatedAt)
  {
    ClientProps(raw.name, raw.email, raw.password, DateOf(raw.createdAt), UpdatedAtOf(raw.updatedAt))
  }

  /** `DynamoClientMapper.toDomain(raw)`: the stored id is passed through
      as it is. `createdAt` is always supplied, so `now` is never used. */
  method ClientToDomain(raw: ClientItem, now: Instant) returns (client: Client)
    ensures fresh(client) && client.id == raw.id && client.props == ClientPropsOfItem(raw)
  {
    var draft := ClientDraft(raw.name, raw.email, raw.password,
                             Some(DateOf(raw.createdAt)), UpdatedAtOf(raw.updatedAt));
    client := new Client(draft, raw.id, now);
  }

  /** `DynamoClientMapper.toPersistence` on a client with this id and these
      properties. */
  function PersistClient(id: string, props: ClientProps): (r: Either<string, ClientItem>)
    ensures r.Left? <==> !WritableDates(props.createdAt, props.updatedAt)
    ensures r.Right? ==>
      r.value.id == id && r.value.name == props.name && r.value.email == props.email
      && r.value.password == props.password
      && r.value.createdAt == DateIso(props.createdAt).value
      && r.value.updatedAt == UpdatedAtText(props.updatedAt).value
  {
    match DateIso(props.createdAt)
    case Left(e) => Left(e)
    case Right(createdAt) =>
      match UpdatedAtText(props.updatedAt)
      case Left(e) => Left(e)
      case Right(updatedAt) =>
        Right(ClientItem(id, props.name, props.email, props.password, createdAt, updatedAt))
  }

  function ClientToPersistence(client: Client): Either<string, ClientItem>
    reads client
  {
    PersistClient(client.id, client.props)
  }

  /** Writing a client and reading it back gives its id and properties. */
  lemma ClientRoundTrip(id: string, props: ClientProps)
    requires WritableDates(props.createdAt, props.updatedAt)
    ensures PersistClient(id, props).Right?
    ensures PersistClient(id, props).value.id == id
    ensures ClientPropsOfItem(PersistClient(id, props).value) == props
  {
    DateRoundTrip(props.createdAt);
    UpdatedAtRoundTrip(props.updatedAt);
  }

  /** An item the mapper wrote is written back unchanged once read. */
  lemma ClientItemRoundTrip(id: string, props: ClientProps)
    requires PersistClient(id, props).Right?
    ensures var item := PersistClient(id, props).value;
      PersistClient(item.id, ClientPropsOfItem(item)) == Right(item)
  {
    ClientRoundTrip(id, props);
  }
}
