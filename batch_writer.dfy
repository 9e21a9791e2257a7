/** The importer's writer: split the records into chunks of at most 25 and
    send one batch-write request per chunk, in order, stopping at the first
    request that fails. */
module BatchWriter {
  import opened Wrappers
  import opened ProductSchema

  /** The store's per-request item limit. */
  const BATCH_SIZE: nat := 25

  function Min(a: int, b: int): int
  {
    if a <= b then a else b
  }

  function Flatten<T>(chunks: seq<seq<T>>): seq<T>
  {
    if chunks == [] then [] else chunks[0] + Flatten(chunks[1..])
  }

  /** Consecutive slices of `size` items; the last one may be shorter. */
  function ChunksOf<T>(a: seq<T>, size: nat): seq<seq<T>>
    requires size > 0
    decreases |a|
  {
    if |a| == 0 then []
    else if |a| <= size then [a]
    else [a[..size]] + ChunksOf(a[size..], size)
  }

  /** Concatenating the chunks gives back the input: nothing is reordered,
      dropped or duplicated. */
  lemma {:induction false} ChunksFlatten<T>(a: seq<T>, size: nat)
    requires size > 0
    ensures Flatten(ChunksOf(a, size)) == a
    decreases |a|
  {
    if |a| > size {
      ChunksFlatten(a[size..], size);
      assert a == a[..size] + a[size..];
    }
  }

  /** Every chunk is non-empty and holds at most `size` items; all chunks but
      the last hold exactly `size`. */
  lemma {:induction false} ChunksSizes<T>(a: seq<T>, size: nat)
    requires size > 0
    ensures forall i :: 0 <= i < |ChunksOf(a, size)| ==> 1 <= |ChunksOf(a, size)[i]| <= size
    ensures forall i :: 0 <= i < |ChunksOf(a, size)| - 1 ==> |ChunksOf(a, size)[i]| == size
    decreases |a|
  {
    if |a| > size {
      ChunksSizes(a[size..], size);
      var c := ChunksOf(a, size);
      assert c == [a[..size]] + ChunksOf(a[size..], size);
      forall i | 1 <= i < |c| ensures c[i] == ChunksOf(a[size..], size)[i - 1] { }
    }
  }

  /** There are ceil(n / size) chunks: the fewest chunks of `size` that hold
      `n` items. In particular an empty input gives no chunk. */
  lemma {:induction false} ChunksCount<T>(a: seq<T>, size: nat)
    requires size > 0
    ensures |a| <= |ChunksOf(a, size)| * size
    ensures |a| == 0 <==> |ChunksOf(a, size)| == 0
    ensures |a| > 0 ==> (|ChunksOf(a, size)| - 1) * size < |a|
    decreases |a|
  {
    if |a| > size {
      ChunksCount(a[size..], size);
      var n := |ChunksOf(a[size..], size)|;
      assert |ChunksOf(a, size)| == n + 1;
      assert (n + 1) * size == n * size + size;
    }
  }

  /** The example of 53 records: three requests of 25, 25 and 3 items. */
  lemma FiftyThreeRecords<T>(a: seq<T>)
    requires |a| == 53
    ensures |ChunksOf(a, BATCH_SIZE)| == 3
    ensures |ChunksOf(a, BATCH_SIZE)[0]| == 25 && |ChunksOf(a, BATCH_SIZE)[1]| == 25
    ensures |ChunksOf(a, BATCH_SIZE)[2]| == 3
  {
    ChunksCount(a, BATCH_SIZE);
    assert |ChunksOf(a, BATCH_SIZE)| == 3;
    ChunksSizes(a, BATCH_SIZE);
    ChunksFlatten(a, BATCH_SIZE);
    var c := ChunksOf(a, BATCH_SIZE);
    assert Flatten(c) == c[0] + c[1] + c[2] by {
      assert Flatten(c[1..]) == c[1] + Flatten(c[2..]);
      assert Flatten(c[2..]) == c[2] + Flatten(c[3..]);
      assert c[3..] == [];
    }
  }

  /** `chunkArray(array, size)`: step through the input `size` items at a
      time, taking the slice `[i, i + size)` (cut short at the end). */
  method ChunkArray<T>(a: seq<T>, size: nat) returns (chunks: seq<seq<T>>)
    requires size > 0
    ensures chunks == ChunksOf(a, size)
  {
    chunks := [];
    var i := 0;
    while i < |a|
      invariant chunks + ChunksOf(a[Min(i, |a|)..], size) == ChunksOf(a, size)
    {
      var rest := a[i..];
      assert ChunksOf(rest, size) == [a[i..Min(i + size, |a|)]] + ChunksOf(a[Min(i + size, |a|)..], size) by {
        if |rest| > size {
          assert rest[..size] == a[i..i + size];
          assert rest[size..] == a[i + size..];
        } else {
          assert a[Min(i + size, |a|)..] == [];
          assert a[i..Min(i + size, |a|)] == rest;
        }
      }
      chunks := chunks + [a[i..Min(i + size, |a|)]];
      i := i + size;
    }
  }

  /** `{ PutRequest: { Item: item } }`. */
  datatype PutRequest = PutRequest(item: ProductRecord)

  /** A batch-write request: table name to the put requests for it. */
  datatype BatchWriteCommand = BatchWriteCommand(requestItems: map<string, seq<PutRequest>>)

  function PutRequests(batch: seq<ProductRecord>): (puts: seq<PutRequest>)
    ensures |puts| == |batch|
    ensures forall i :: 0 <= i < |batch| ==> puts[i].item == batch[i]
  {
    seq(|batch|, i requires 0 <= i < |batch| => PutRequest(batch[i]))
  }

  function Command(tableName: string, batch: seq<ProductRecord>): BatchWriteCommand
  {
    BatchWriteCommand(map[tableName := PutRequests(batch)])
  }

  /** The requests for a list of chunks, one per chunk, in chunk order. */
  function Commands(tableName: string, batches: seq<seq<ProductRecord>>): (cs: seq<BatchWriteCommand>)
    ensures |cs| == |batches|
    ensures forall i :: 0 <= i < |batches| ==> cs[i] == Command(tableName, batches[i])
  {
    seq(|batches|, i requires 0 <= i < |batches| => Command(tableName, batches[i]))
  }

  /** The items carried by a list of requests, in order. */
  function Items(cs: seq<BatchWriteCommand>, tableName: string): seq<ProductRecord>
  {
    if cs == [] then []
    else
      var puts := if tableName in cs[0].requestItems then cs[0].requestItems[tableName] else [];
      seq(|puts|, i requires 0 <= i < |puts| => puts[i].item) + Items(cs[1..], tableName)
  }

  /** The requests for all chunks of a list carry exactly that list. */
  lemma {:induction false} CommandsCarryItems(tableName: string, items: seq<ProductRecord>)
    ensures Items(Commands(tableName, ChunksOf(items, BATCH_SIZE)), tableName) == items
  {
    ChunksFlatten(items, BATCH_SIZE);
    CommandsCarryFlatten(tableName, ChunksOf(items, BATCH_SIZE));
  }

  lemma {:induction false} CommandsCarryFlatten(tableName: string, batches: seq<seq<ProductRecord>>)
    ensures Items(Commands(tableName, batches), tableName) == Flatten(batches)
  {
    if batches != [] {
      var cs := Commands(tableName, batches);
      assert cs[1..] == Commands(tableName, batches[1..]);
      CommandsCarryFlatten(tableName, batches[1..]);
      var puts := cs[0].requestItems[tableName];
      assert seq(|puts|, i requires 0 <= i < |puts| => puts[i].item) == batches[0];
    }
  }

  /** The document client of the key-value store. Which requests fail is
      not known in advance: `faults` maps the position of a request in the
      client's history to the error the service answers it with. */
  class DocClient {
    /** Every request issued so far, in order. */
    var sent: seq<BatchWriteCommand>
    const faults: map<nat, string>

    constructor (faults: map<nat, string>)
      ensures sent == [] && this.faults == faults
    {
      sent := [];
      this.faults := faults;
    }

    /** `docClient.send(command)`: the request is issued; it fails when the
        service faults at this position. A failed request is not undone and
        undoes nothing sent before it. */
    method Send(command: BatchWriteCommand) returns (r: Outcome<string>)
      modifies this
      ensures sent == old(sent) + [command]
      ensures r.Fail? <==> |old(sent)| in faults
      ensures r.Fail? ==> r.error == faults[|old(sent)|]
    {
      sent := sent + [command];
      if |sent| - 1 in faults {
        r := Fail(faults[|sent| - 1]);
      } else {
        r := Pass;
      }
    }
  }

  /** The history `after` extends `before` by the first requests of `cmds`,
      every one answered without fault except possibly the last; `ok` holds
      exactly when all of `cmds` went out without fault. */
  predicate SentPrefix(before: seq<BatchWriteCommand>, after: seq<BatchWriteCommand>,
                       cmds: seq<BatchWriteCommand>, faults: map<nat, string>, ok: bool)
  {
    |before| <= |after| <= |before| + |cmds|
    && after == before + cmds[..|after| - |before|]
    && (forall j :: |before| <= j < |after| - 1 ==> j !in faults)
    && (ok <==> |after| == |before| + |cmds| && forall j :: |before| <= j < |after| ==> j !in faults)
    && (!ok ==> |after| > |before| && |after| - 1 in faults)
  }

  /** `batchWrite(tableName, items)`: one request per chunk, in chunk order;
      the first failing request ends the call with its error, leaving the
      earlier ones in place and never issuing the later ones. */
  method BatchWrite(db: DocClient, tableName: string, items: seq<ProductRecord>) returns (r: Outcome<string>)
    modifies db
    ensures SentPrefix(old(db.sent), db.sent, Commands(tableName, ChunksOf(items, BATCH_SIZE)), db.faults, r.Pass?)
    ensures r.Fail? ==> r.error == db.faults[|db.sent| - 1]
  {
    var batches := ChunkArray(items, BATCH_SIZE);
    var cmds := Commands(tableName, batches);
    var k := 0;
    while k < |batches|
      invariant 0 <= k <= |batches|
      invariant db.sent == old(db.sent) + cmds[..k]
      invariant forall j :: |old(db.sent)| <= j < |db.sent| ==> j !in db.faults
    {
      var res := db.Send(Command(tableName, batches[k]));
      assert cmds[..k + 1] == cmds[..k] + [cmds[k]];
      if res.Fail? {
        return res;
      }
      k := k + 1;
    }
    assert cmds[..k] == cmds;
    r := Pass;
  }
}
