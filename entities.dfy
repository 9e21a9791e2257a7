/** The catalog's entities. A `Product` or a `Client` is an object with an
    identifier fixed at creation and a record of properties that its setters
    update in place; every setter also "touches" the entity, stamping
    `updatedAt` with the current time. The clock is a parameter (`now`). */
module Entities {
  import opened Wrappers
  import opened Timestamps

  datatype ProductProps = ProductProps(
    name: string, description: string, price: real, quantity: int,
    createdAt: Date, updatedAt: Option<Date>)

  /** What `Product.create` is given: every property, `createdAt` optional. */
  datatype ProductDraft = ProductDraft(
    name: string, description: string, price: real, quantity: int,
    createdAt: Option<Date>, updatedAt: Option<Date>)

  /** The properties `Product.create` builds: the draft's, with `createdAt`
      defaulting to the current time. */
  function ProductPropsOf(draft: ProductDraft, now: Instant): (p: ProductProps)
    ensures p.name == draft.name && p.description == draft.description
    ensures p.price == draft.price && p.quantity == draft.quantity
    ensures draft.createdAt.Some? ==> p.createdAt == draft.createdAt.value
    ensures draft.createdAt.None? ==> p.createdAt == Valid(now)
    ensures p.updatedAt == draft.updatedAt
  {
    ProductProps(draft.name, draft.description, draft.price, draft.quantity,
                 if draft.createdAt.Some? then draft.createdAt.value else Valid(now),
                 draft.updatedAt)
  }

  /** One setter call on a product: the property it assigns. */
  datatype ProductEdit =
    | NameEdit(name: string)
    | DescriptionEdit(description: string)
    | PriceEdit(price: real)
    | QuantityEdit(quantity: int)

  /** What a setter called at `now` makes of the properties: its own field
      is assigned, `updatedAt` becomes `now`, nothing else changes. */
  function ApplyProductEdit(p: ProductProps, edit: ProductEdit, now: Instant): (q: ProductProps)
    ensures q.createdAt == p.createdAt && q.updatedAt == Some(Valid(now))
    ensures q.name == (if edit.NameEdit? then edit.name else p.name)
    ensures q.description == (if edit.DescriptionEdit? then edit.description else p.description)
    ensures q.price == (if edit.PriceEdit? then edit.price else p.price)
    ensures q.quantity == (if edit.QuantityEdit? then edit.quantity else p.quantity)
  {
    var touched := Some(Valid(now));
    match edit
    case NameEdit(name) => p.(name := name, updatedAt := touched)
    case DescriptionEdit(description) => p.(description := description, updatedAt := touched)
    case PriceEdit(price) => p.(price := price, updatedAt := touched)
    case QuantityEdit(quantity) => p.(quantity := quantity, updatedAt := touched)
  }

  /** A run of setter calls, each with the time it was made at. */
  function ApplyProductEdits(p: ProductProps, edits: seq<(ProductEdit, Instant)>): ProductProps
  {
    if edits == [] then p
    else
      var last := edits[|edits| - 1];
      ApplyProductEdit(ApplyProductEdits(p, edits[..|edits| - 1]), last.0, last.1)
  }

  /** However many setters run, `createdAt` keeps its value and `updatedAt`
      is the time of the last call (untouched when there is none). */
  lemma {:induction false} ProductEditsKeepCreatedAt(p: ProductProps, edits: seq<(ProductEdit, Instant)>)
    ensures ApplyProductEdits(p, edits).createdAt == p.createdAt
    ensures edits == [] ==> ApplyProductEdits(p, edits).updatedAt == p.updatedAt
    ensures edits != [] ==> ApplyProductEdits(p, edits).updatedAt == Some(Valid(edits[|edits| - 1].1))
  {
    if edits != [] {
      ProductEditsKeepCreatedAt(p, edits[..|edits| - 1]);
    }
  }

  class Product {
    const id: string
    var props: ProductProps

    /** `Product.create(props, id)`. */
    constructor (draft: ProductDraft, id: string, now: Instant)
      ensures this.id == id && props == ProductPropsOf(draft, now)
    {
      this.id := id;
      props := ProductPropsOf(draft, now);
    }

    /** `product.name = name`. */
    method SetName(name: string, now: Instant)
      modifies this
      ensures props == ApplyProductEdit(old(props), NameEdit(name), now)
    {
      props := props.(name := name);
      Touch(now);
    }

    /** `product.description = description`. */
    method SetDescription(description: string, now: Instant)
      modifies this
      ensures props == ApplyProductEdit(old(props), DescriptionEdit(description), now)
    {
      props := props.(description := description);
      Touch(now);
    }

    /** `product.price = price`. */
    method SetPrice(price: real, now: Instant)
      modifies this
      ensures props == ApplyProductEdit(old(props), PriceEdit(price), now)
    {
      props := props.(price := price);
      Touch(now);
    }

    /** `product.quantity = quantity`. */
    method SetQuantity(quantity: int, now: Instant)
      modifies this
      ensures props == ApplyProductEdit(old(props), QuantityEdit(quantity), now)
    {
      props := props.(quantity := quantity);
      Touch(now);
    }

    /** `touch()`: only `updatedAt` changes. */
    method Touch(now: Instant)
      modifies this
      ensures props == old(props).(updatedAt := Some(Valid(now)))
    {
      props := props.(updatedAt := Some(Valid(now)));
    }
  }

  datatype ClientProps = ClientProps(
    name: string, email: string, password: string,
    createdAt: Date, updatedAt: Option<Date>)

  /** What `Client.create` is given: every property, `createdAt` optional. */
  datatype ClientDraft = ClientDraft(
    name: string, email: string, password: string,
    createdAt: Option<Date>, updatedAt: Option<Date>)

  /** The properties `Client.create` builds: the draft's, with `createdAt`
      defaulting to the current time. */
  function ClientPropsOf(draft: ClientDraft, now: Instant): (p: ClientProps)
    ensures p.name == draft.name && p.email == draft.email && p.password == draft.password
    ensures draft.createdAt.Some? ==> p.createdAt == draft.createdAt.value
    ensures draft.createdAt.None? ==> p.createdAt == Valid(now)
    ensures p.updatedAt == draft.updatedAt
  {
    ClientProps(draft.name, draft.email, draft.password,
                if draft.createdAt.Some? then draft.createdAt.value else Valid(now),
                draft.updatedAt)
  }

  /** One setter call on a client: the property it assigns. */
  datatype ClientEdit =
    | ClientNameEdit(name: string)
    | EmailEdit(email: string)
    | PasswordEdit(password: string)

  /** What a setter called at `now` makes of the properties: its own field
      is assigned, `updatedAt` becomes `now`, nothing else changes. */
  function ApplyClientEdit(p: ClientProps, edit: ClientEdit, now: Instant): (q: ClientProps)
    ensures q.createdAt == p.createdAt && q.updatedAt == Some(Valid(now))
    ensures q.name == (if edit.ClientNameEdit? then edit.name else p.name)
    ensures q.email == (if edit.EmailEdit? then edit.email else p.email)
    ensures q.password == (if edit.PasswordEdit? then edit.password else p.password)
  {
    var touched := Some(Valid(now));
    match edit
    case ClientNameEdit(name) => p.(name := name, updatedAt := touched)
    case EmailEdit(email) => p.(email := email, updatedAt := touched)
    case PasswordEdit(password) => p.(password := password, updatedAt := touched)
  }

  /** A run of setter calls, each with the time it was made at. */
  function ApplyClientEdits(p: ClientProps, edits: seq<(ClientEdit, Instant)>): ClientProps
  {
    if edits == [] then p
    else
      var last := edits[|edits| - 1];
      ApplyClientEdit(ApplyClientEdits(p, edits[..|edits| - 1]), last.0, last.1)
  }

  /** However many setters run, `createdAt` keeps its value and `updatedAt`
      is the time of the last call (untouched when there is none). */
  lemma {:induction false} ClientEditsKeepCreatedAt(p: ClientProps, edits: seq<(ClientEdit, Instant)>)
    ensures ApplyClientEdits(p, edits).createdAt == p.createdAt
    ensures edits == [] ==> ApplyClientEdits(p, edits).updatedAt == p.updatedAt
    ensures edits != [] ==> ApplyClientEdits(p, edits).updatedAt == Some(Valid(edits[|edits| - 1].1))
  {
    if edits != [] {
      ClientEditsKeepCreatedAt(p, edits[..|edits| - 1]);
    }
  }

  class Client {
    const id: string
    var props: ClientProps

    /** `Client.create(props, id)`. */
    constructor (draft: ClientDraft, id: string, now: Instant)
      ensures this.id == id && props == ClientPropsOf(draft, now)
    {
      this.id := id;
      props := ClientPropsOf(draft, now);
    }

    /** `client.name = name`. */
    method SetName(name: string, now: Instant)
      modifies this
      ensures props == ApplyClientEdit(old(props), ClientNameEdit(name), now)
    {
      props := props.(name := name);
      Touch(now);
    }

    /** `client.email = email`. */
    method SetEmail(email: string, now: Instant)
      modifies this
      ensures props == ApplyClientEdit(old(props), EmailEdit(email), now)
    {
      props := props.(email := email);
      Touch(now);
    }

    /** `client.password = password`. */
    method SetPassword(password: string, now: Instant)
      modifies this
      ensures props == ApplyClientEdit(old(props), PasswordEdit(password), now)
    {
      props := props.(password := password);
      Touch(now);
    }

    /** `touch()`: only `updatedAt` changes. */
    method Touch(now: Instant)
      modifies this
      ensures props == old(props).(updatedAt := Some(Valid(now)))
    {
      props := props.(updatedAt := Some(Valid(now)));
    }
  }
}
