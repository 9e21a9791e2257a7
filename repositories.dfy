/** The list-backed product and client repositories: `items` is an array the
    repositories push onto and splice, searched front to back. */
module Repositories {
  import opened Wrappers
  import opened Text
  import opened Entities

  // ------------------------------------------------------------- searching

  /** `i` is the position of the first occurrence of `x` in `s`. */
  predicate FirstAt<T(==)>(s: seq<T>, x: T, i: nat)
  {
    i < |s| && s[i] == x && x !in s[..i]
  }

  /** `findIndex` for equality with `x`, `None` standing for `-1`. */
  function IndexOf<T(==)>(s: seq<T>, x: T): (r: Option<nat>)
    ensures r.None? <==> x !in s
    ensures r.Some? ==> FirstAt(s, x, r.value)
  {
    if s == [] then None
    else if s[0] == x then Some(0)
    else
      match IndexOf(s[1..], x)
      case None => None
      case Some(i) =>
        assert s[..i + 1] == [s[0]] + s[1..][..i];
        Some(i + 1)
  }

  /** `s.splice(i, 1)`: the sequence without its element at `i`. */
  function RemoveAt<T>(s: seq<T>, i: nat): seq<T>
    requires i < |s|
  {
    s[..i] + s[i + 1..]
  }

  /** Removing one element shifts the later ones down by one place. */
  lemma RemoveAtShifts<T>(s: seq<T>, i: nat)
    requires i < |s|
    ensures |RemoveAt(s, i)| == |s| - 1
    ensures forall j :: 0 <= j < i ==> RemoveAt(s, i)[j] == s[j]
    ensures forall j :: i <= j < |s| - 1 ==> RemoveAt(s, i)[j] == s[j + 1]
  {
  }

  /** Removing one element keeps the others in their relative order and
      takes exactly one copy of the removed element out. */
  lemma RemoveAtKeepsOthers<T>(s: seq<T>, i: nat)
    requires i < |s|
    ensures |RemoveAt(s, i)| == |s| - 1
    ensures forall j :: 0 <= j < i ==> RemoveAt(s, i)[j] == s[j]
    ensures forall j :: i <= j < |s| - 1 ==> RemoveAt(s, i)[j] == s[j + 1]
    ensures multiset(RemoveAt(s, i)) + multiset{s[i]} == multiset(s)
  {
    RemoveAtShifts(s, i);
    assert s == s[..i] + [s[i]] + s[i + 1..];
  }

  /** No value occurs twice. */
  predicate Distinct<T(==)>(s: seq<T>)
  {
    forall i, j :: 0 <= i < j < |s| ==> s[i] != s[j]
  }

  /** Removing the occurrence of a value that occurs once leaves none. */
  lemma RemoveOnlyOccurrence<T>(s: seq<T>, i: nat)
    requires i < |s| && Distinct(s)
    ensures s[i] !in RemoveAt(s, i)
    ensures Distinct(RemoveAt(s, i))
  {
    RemoveAtShifts(s, i);
    var r := RemoveAt(s, i);
    forall j | 0 <= j < |r|
      ensures r[j] != s[i]
    {
      if j < i {
        assert r[j] == s[j];
      } else {
        assert r[j] == s[j + 1];
      }
    }
  }

  // ------------------------------------------------------------- products

  function ProductIds(items: seq<Product>): (ids: seq<string>)
    ensures |ids| == |items|
    ensures forall i :: 0 <= i < |items| ==> ids[i] == items[i].id
  {
    seq(|items|, i requires 0 <= i < |items| => items[i].id)
  }

  /** The names the repository compares, lower-cased. */
  function LowerNames(items: seq<Product>): (names: seq<string>)
    reads items
    ensures |names| == |items|
    ensures forall i :: 0 <= i < |items| ==> names[i] == Lower(items[i].props.name)
  {
    seq(|items|, i reads items requires 0 <= i < |items| => Lower(items[i].props.name))
  }

  /** Splicing a product out splices its id out. */
  lemma SpliceProductIds(items: seq<Product>, i: nat)
    requires i < |items|
    ensures ProductIds(RemoveAt(items, i)) == RemoveAt(ProductIds(items), i)
  {
    var rest := RemoveAt(items, i);
    RemoveAtShifts(items, i);
    RemoveAtShifts(ProductIds(items), i);
    forall j | 0 <= j < |rest|
      ensures ProductIds(rest)[j] == RemoveAt(ProductIds(items), i)[j]
    {
      if j < i {
        assert rest[j] == items[j];
      } else {
        assert rest[j] == items[j + 1];
      }
    }
  }

  /** Splicing a product out splices its name out. */
  lemma SpliceLowerNames(items: seq<Product>, i: nat)
    requires i < |items|
    ensures LowerNames(RemoveAt(items, i)) == RemoveAt(LowerNames(items), i)
  {
    var rest := RemoveAt(items, i);
    RemoveAtShifts(items, i);
    RemoveAtShifts(LowerNames(items), i);
    forall j | 0 <= j < |rest|
      ensures LowerNames(rest)[j] == RemoveAt(LowerNames(items), i)[j]
    {
      if j < i {
        assert rest[j] == items[j];
      } else {
        assert rest[j] == items[j + 1];
      }
    }
  }

  /** Splicing a product out splices its id and its name out. */
  lemma RemoveProductAt(items: seq<Product>, i: nat)
    requires i < |items|
    ensures ProductIds(RemoveAt(items, i)) == RemoveAt(ProductIds(items), i)
    ensures LowerNames(RemoveAt(items, i)) == RemoveAt(LowerNames(items), i)
  {
    SpliceProductIds(items, i);
    SpliceLowerNames(items, i);
  }

  class InMemoryProductsRepository {
    var items: seq<Product>

    constructor ()
      ensures items == []
    {
      items := [];
    }

    /** `create(product)`: appends. */
    method Create(product: Product)
      modifies this
      ensures items == old(items) + [product]
    {
      items := items + [product];
    }

    /** `findById(id)`: the first product with the id, if any. */
    function FindById(id: string): (r: Option<Product>)
      reads this
      ensures r.None? <==> id !in ProductIds(items)
      ensures r.Some? ==> exists i: nat :: FirstAt(ProductIds(items), id, i) && items[i] == r.value
    {
      match IndexOf(ProductIds(items), id)
      case None => None
      case Some(i) => Some(items[i])
    }

    /** `findByName(name)`: the first product whose name equals `name`
        once both are lower-cased, if any. */
    function FindByName(name: string): (r: Option<Product>)
      reads this, items
      ensures r.None? <==> Lower(name) !in LowerNames(items)
      ensures r.Some? ==> exists i: nat :: FirstAt(LowerNames(items), Lower(name), i) && items[i] == r.value
    {
      match IndexOf(LowerNames(items), Lower(name))
      case None => None
      case Some(i) => Some(items[i])
    }

    /** `update(product)`: not implemented; it always throws. */
    method Update(product: Product) returns (r: Outcome<string>)
      ensures r == Fail("Method not implemented.")
    {
      r := Fail("Method not implemented.");
    }

    /** `delete(id)`: splices out the first product with the id; no change
        when there is none. */
    method Delete(id: string)
      modifies this
      ensures IndexOf(ProductIds(old(items)), id).None? ==> items == old(items)
      ensures IndexOf(ProductIds(old(items)), id).Some? ==>
        items == RemoveAt(old(items), IndexOf(ProductIds(old(items)), id).value)
    {
      var k := IndexOf(ProductIds(items), id);
      if k.Some? {
        items := items[..k.value] + items[k.value + 1..];
      }
    }
  }

  // ------------------------------------------------------------- clients

  function ClientIds(items: seq<Client>): (ids: seq<string>)
    ensures |ids| == |items|
    ensures forall i :: 0 <= i < |items| ==> ids[i] == items[i].id
  {
    seq(|items|, i requires 0 <= i < |items| => items[i].id)
  }

  function Emails(items: seq<Client>): (emails: seq<string>)
    reads items
    ensures |emails| == |items|
    ensures forall i :: 0 <= i < |items| ==> emails[i] == items[i].props.email
  {
    seq(|items|, i reads items requires 0 <= i < |items| => items[i].props.email)
  }

  /** Splicing a client out splices its id out. */
  lemma SpliceClientIds(items: seq<Client>, i: nat)
    requires i < |items|
    ensures ClientIds(RemoveAt(items, i)) == RemoveAt(ClientIds(items), i)
  {
    var rest := RemoveAt(items, i);
    RemoveAtShifts(items, i);
    RemoveAtShifts(ClientIds(items), i);
    forall j | 0 <= j < |rest|
      ensures ClientIds(rest)[j] == RemoveAt(ClientIds(items), i)[j]
    {
      if j < i {
        assert rest[j] == items[j];
      } else {
        assert rest[j] == items[j + 1];
      }
    }
  }

  /** Splicing a client out splices its email out. */
  lemma SpliceEmails(items: seq<Client>, i: nat)
    requires i < |items|
    ensures Emails(RemoveAt(items, i)) == RemoveAt(Emails(items), i)
  {
    var rest := RemoveAt(items, i);
    RemoveAtShifts(items, i);
    RemoveAtShifts(Emails(items), i);
    forall j | 0 <= j < |rest|
      ensures Emails(rest)[j] == RemoveAt(Emails(items), i)[j]
    {
      if j < i {
        assert rest[j] == items[j];
      } else {
        assert rest[j] == items[j + 1];
      }
    }
  }

  /** Splicing a client out splices its id and its email out. */
  lemma RemoveClientAt(items: seq<Client>, i: nat)
    requires i < |items|
    ensures ClientIds(RemoveAt(items, i)) == RemoveAt(ClientIds(items), i)
    ensures Emails(RemoveAt(items, i)) == RemoveAt(Emails(items), i)
  {
    SpliceClientIds(items, i);
    SpliceEmails(items, i);
  }

  /** One page of `findAll`. */
  datatype Page = Page(items: seq<Client>, count: nat, lastEvaluatedKey: Option<string>)

  /** Where `slice(0, end)` stops on an array of `length` elements: a
      negative `end` counts from the back, and the result is clamped to the
      array. */
  function SliceEnd(end: int, length: nat): (e: nat)
    ensures e <= length
  {
    if end < 0 then (if length + end < 0 then 0 else length + end)
    else if end < length then end
    else length
  }

  /** `findAll({ limit })` on `items`: the first `limit` clients (all of
      them when `limit` is undefined), their count, and the last returned id
      as the continuation key when some were left out. A page that leaves
      clients out but holds none has no last client to read: that is a
      `TypeError`. */
  function PageOf(items: seq<Client>, limit: Option<int>): (r: Either<string, Page>)
    ensures var n := SliceEnd(if limit.Some? then limit.value else |items|, |items|);
      (r.Left? <==> n == 0 && items != [])
      && (r.Right? ==> r.value.items == items[..n] && r.value.count == n)
    ensures r.Right? ==> (r.value.lastEvaluatedKey.Some? <==> r.value.count < |items|)
    ensures r.Right? && r.value.lastEvaluatedKey.Some? ==>
      r.value.count > 0 && r.value.lastEvaluatedKey.value == r.value.items[r.value.count - 1].id
  {
    var clients := items[..SliceEnd(if limit.Some? then limit.value else |items|, |items|)];
    if |clients| < |items| then
      if |clients| == 0 then Left("TypeError: Cannot read properties of undefined (reading 'id')")
      else Right(Page(clients, |clients|, Some(clients[|clients| - 1].id)))
    else Right(Page(clients, |clients|, None))
  }

  /** A limit within the list gives exactly that many clients, and a key. */
  lemma LimitWithinList(items: seq<Client>, limit: int)
    requires 1 <= limit < |items|
    ensures PageOf(items, Some(limit)).Right?
    ensures PageOf(items, Some(limit)).value.count == limit
    ensures PageOf(items, Some(limit)).value.lastEvaluatedKey == Some(items[limit - 1].id)
  {
  }

  /** Without a limit, or with one past the end, every client comes back
      and there is no key. */
  lemma NoLimitGivesAll(items: seq<Client>, limit: Option<int>)
    requires limit.None? || limit.value >= |items|
    ensures PageOf(items, limit) == Right(Page(items, |items|, None))
  {
    assert items[..|items|] == items;
  }

  class InMemoryClientsRepository {
    var items: seq<Client>

    constructor ()
      ensures items == []
    {
      items := [];
    }

    /** `create(client)`: appends. */
    method Create(client: Client)
      modifies this
      ensures items == old(items) + [client]
    {
      items := items + [client];
    }

    /** `findById(id)`: the first client with the id, if any. */
    function FindById(id: string): (r: Option<Client>)
      reads this
      ensures r.None? <==> id !in ClientIds(items)
      ensures r.Some? ==> exists i: nat :: FirstAt(ClientIds(items), id, i) && items[i] == r.value
    {
      match IndexOf(ClientIds(items), id)
      case None => None
      case Some(i) => Some(items[i])
    }

    /** `findByEmail(email)`: the first client whose email is exactly
        `email`, if any. */
    function FindByEmail(email: string): (r: Option<Client>)
      reads this, items
      ensures r.None? <==> email !in Emails(items)
      ensures r.Some? ==> exists i: nat :: FirstAt(Emails(items), email, i) && items[i] == r.value
    {
      match IndexOf(Emails(items), email)
      case None => None
      case Some(i) => Some(items[i])
    }

    /** `findAll({ limit })`; any incoming continuation key is ignored. */
    function FindAll(limit: Option<int>): (r: Either<string, Page>)
      reads this
    {
      PageOf(items, limit)
    }

    /** `update(client)`: not implemented; it always throws. */
    method Update(client: Client) returns (r: Outcome<string>)
      ensures r == Fail("Method not implemented.")
    {
      r := Fail("Method not implemented.");
    }

    /** `delete(id)`: splices out the first client with the id; no change
        when there is none. */
    method Delete(id: string)
      modifies this
      ensures IndexOf(ClientIds(old(items)), id).None? ==> items == old(items)
      ensures IndexOf(ClientIds(old(items)), id).Some? ==>
        items == RemoveAt(old(items), IndexOf(ClientIds(old(items)), id).value)
    {
      var k := IndexOf(ClientIds(items), id);
      if k.Some? {
        items := items[..k.value] + items[k.value + 1..];
      }
    }
  }
}
