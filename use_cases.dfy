/** The catalog's use-cases: each looks the repository up first and only
    then changes it. New identifiers and the clock are parameters (`id`,
    `now`); the password hasher is an object whose hash function is given. */
module UseCases {
  import opened Wrappers
  import opened Text
  import opened Timestamps
  import opened Entities
  import opened Repositories

  datatype UseCaseError = ResourceAlreadyExists | ResourceNotFound

  /** The password hasher, with a count of the hashes it has computed. */
  class Hasher {
    const hashOf: string -> string
    var calls: nat

    constructor (hashOf: string -> string)
      ensures this.hashOf == hashOf && calls == 0
    {
      this.hashOf := hashOf;
      calls := 0;
    }

    /** `hash(plain)`. */
    method Hash(plain: string) returns (hashed: string)
      modifies this
      ensures hashed == hashOf(plain) && calls == old(calls) + 1
    {
      hashed := hashOf(plain);
      calls := calls + 1;
    }
  }

  /** Adding a value the sequence lacks keeps it free of repeats. */
  lemma {:induction false} AppendFresh<T>(s: seq<T>, x: T)
    requires Distinct(s) && x !in s
    ensures Distinct(s + [x])
  {
    var t := s + [x];
    forall i, j | 0 <= i < j < |t|
      ensures t[i] != t[j]
    {
      if j < |s| {
        assert t[i] == s[i] && t[j] == s[j];
      } else {
        assert t[i] == s[i] && t[i] in s;
      }
    }
  }

  /** `RegisterProductUseCase.execute`: a name already taken (compared
      without case) is refused and nothing changes; otherwise a product with
      the given fields, created now and never updated, is appended and
      returned. Registering only through here keeps names unique. */
  method RegisterProduct(repo: InMemoryProductsRepository, name: string, description: string,
                         price: real, quantity: int, id: string, now: Instant)
    returns (r: Either<UseCaseError, Product>)
    modifies repo
    ensures old(repo.FindByName(name)).Some? ==>
      r == Left(ResourceAlreadyExists) && repo.items == old(repo.items)
    ensures old(repo.FindByName(name)).None? ==>
      r.Right? && fresh(r.value) && repo.items == old(repo.items) + [r.value]
      && r.value.id == id && r.value.props == ProductProps(name, description, price, quantity, Valid(now), None)
    ensures Distinct(old(LowerNames(repo.items))) ==> Distinct(LowerNames(repo.items))
  {
    ghost var names := LowerNames(repo.items);
    var existing := repo.FindByName(name);
    if existing.Some? {
      return Left(ResourceAlreadyExists);
    }
    var product := new Product(ProductDraft(name, description, price, quantity, None, None), id, now);
    ghost var before := repo.items;
    assert LowerNames(before) == names;
    assert LowerNames(before + [product]) == names + [Lower(name)];
    repo.Create(product);
    if Distinct(names) {
      AppendFresh(names, Lower(name));
    }
    r := Right(product);
  }

  /** `DeleteProductUseCase.execute`: an unknown id is refused and nothing
      changes; otherwise the first product with the id is spliced out, the
      others keep their order, and with unique ids the id is gone. */
  method DeleteProduct(repo: InMemoryProductsRepository, id: string) returns (r: Outcome<UseCaseError>)
    modifies repo
    ensures old(repo.FindById(id)).None? ==> r == Fail(ResourceNotFound) && repo.items == old(repo.items)
    ensures old(repo.FindById(id)).Some? ==>
      r == Pass
      && repo.items == RemoveAt(old(repo.items), IndexOf(ProductIds(old(repo.items)), id).value)
      && multiset(repo.items) + multiset{old(repo.FindById(id)).value} == multiset(old(repo.items))
    ensures Distinct(ProductIds(old(repo.items))) ==> id !in ProductIds(repo.items)
  {
    var existing := repo.FindById(id);
    if existing.None? {
      return Fail(ResourceNotFound);
    }
    ghost var before := repo.items;
    ghost var k := IndexOf(ProductIds(before), id).value;
    repo.Delete(id);
    RemoveAtKeepsOthers(before, k);
    RemoveProductAt(before, k);
    if Distinct(ProductIds(before)) {
      RemoveOnlyOccurrence(ProductIds(before), k);
    }
    r := Pass;
  }

  /** `RegisterClientUseCase.execute`: an email already taken (compared
      exactly) is refused, with nothing hashed and nothing changed;
      otherwise a client with the given name and email and the hash of the
      password, created now and never updated, is appended and returned.
      Registering only through here keeps emails unique. */
  method RegisterClient(repo: InMemoryClientsRepository, hasher: Hasher,
                        name: string, email: string, password: string, id: string, now: Instant)
    returns (r: Either<UseCaseError, Client>)
    modifies repo, hasher
    ensures old(repo.FindByEmail(email)).Some? ==>
      r == Left(ResourceAlreadyExists) && repo.items == old(repo.items) && hasher.calls == old(hasher.calls)
    ensures old(repo.FindByEmail(email)).None? ==>
      r.Right? && fresh(r.value) && repo.items == old(repo.items) + [r.value] && hasher.calls == old(hasher.calls) + 1
      && r.value.id == id && r.value.props == ClientProps(name, email, hasher.hashOf(password), Valid(now), None)
    ensures Distinct(old(Emails(repo.items))) ==> Distinct(Emails(repo.items))
  {
    ghost var emails := Emails(repo.items);
    var existing := repo.FindByEmail(email);
    if existing.Some? {
      return Left(ResourceAlreadyExists);
    }
    var hashed := hasher.Hash(password);
    var client := new Client(ClientDraft(name, email, hashed, None, None), id, now);
    ghost var before := repo.items;
    assert Emails(before) == emails;
    assert Emails(before + [client]) == emails + [email];
    repo.Create(client);
    if Distinct(emails) {
      AppendFresh(emails, email);
    }
    r := Right(client);
  }

  /** `DeleteClientUseCase.execute`: an unknown id is refused and nothing
      changes; otherwise the first client with the id is spliced out, the
      others keep their order, and with unique ids the id is gone. */
  method DeleteClient(repo: InMemoryClientsRepository, id: string) returns (r: Outcome<UseCaseError>)
    modifies repo
    ensures old(repo.FindById(id)).None? ==> r == Fail(ResourceNotFound) && repo.items == old(repo.items)
    ensures old(repo.FindById(id)).Some? ==>
      r == Pass
      && repo.items == RemoveAt(old(repo.items), IndexOf(ClientIds(old(repo.items)), id).value)
      && multiset(repo.items) + multiset{old(repo.FindById(id)).value} == multiset(old(repo.items))
    ensures Distinct(ClientIds(old(repo.items))) ==> id !in ClientIds(repo.items)
  {
    var existing := repo.FindById(id);
    if existing.None? {
      return Fail(ResourceNotFound);
    }
    ghost var before := repo.items;
    ghost var k := IndexOf(ClientIds(before), id).value;
    repo.Delete(id);
    RemoveAtKeepsOthers(before, k);
    RemoveClientAt(before, k);
    if Distinct(ClientIds(before)) {
      RemoveOnlyOccurrence(ClientIds(before), k);
    }
    r := Pass;
  }
}
