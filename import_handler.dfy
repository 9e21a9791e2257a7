/** The importer's entry point: for each uploaded object named by an event,
    fetch it, check its size, parse it by extension, validate every row,
    attach identities and write the valid records in batches. The first file
    that fails ends the whole event. */
module ImportHandler {
  import opened Wrappers
  import opened Text
  import opened Timestamps
  import opened ProductSchema
  import opened Parsers
  import opened S3Keys
  import opened BatchWriter

  /** Largest accepted file: 10 MiB. */
  const MAX_SIZE: nat := 10 * 1024 * 1024

  // ------------------------------------------------------------ collaborators

  /** The bytes of an uploaded object, represented by their length and by
      what the two parsing libraries make of them: the CSV rows of their
      UTF-8 text, and the workbook read from them (or the error reading
      throws). */
  datatype FileBytes = FileBytes(length: nat, csv: CsvParseResult, workbook: Either<string, Workbook>)

  datatype ObjectRef = ObjectRef(bucket: string, key: string)

  /** `getFileContent`: a missing object fails, and so does one whose
      response has no body. */
  function Fetch(objects: map<ObjectRef, Option<FileBytes>>, ref: ObjectRef): Either<string, FileBytes>
  {
    if ref !in objects then Left("NoSuchKey")
    else match objects[ref]
      case None => Left("Empty file content")
      case Some(bytes) => Right(bytes)
  }

  /** The object store, with the log of every fetch made. */
  class ObjectStore {
    const objects: map<ObjectRef, Option<FileBytes>>
    var fetched: seq<ObjectRef>

    constructor (objects: map<ObjectRef, Option<FileBytes>>)
      ensures this.objects == objects && fetched == []
    {
      this.objects := objects;
      fetched := [];
    }

    method GetFileContent(bucket: string, key: string) returns (r: Either<string, FileBytes>)
      modifies this
      ensures fetched == old(fetched) + [ObjectRef(bucket, key)]
      ensures r == Fetch(objects, ObjectRef(bucket, key))
    {
      fetched := fetched + [ObjectRef(bucket, key)];
      r := Fetch(objects, ObjectRef(bucket, key));
    }
  }

  const TABLE_NAME_KEY := "PRODUCTS_TABLE_NAME"

  /** `getTableName`: the secret's `PRODUCTS_TABLE_NAME` entry; reading the
      secret may fail, and a missing or empty entry fails. */
  function TableNameOf(secret: Either<string, map<string, string>>): (r: Either<string, string>)
    ensures r.Right? <==> secret.Right? && TABLE_NAME_KEY in secret.value && secret.value[TABLE_NAME_KEY] != ""
    ensures r.Right? ==> r.value == secret.value[TABLE_NAME_KEY]
    ensures secret.Left? ==> r == Left(secret.error)
  {
    match secret
    case Left(e) => Left(e)
    case Right(entries) =>
      if TABLE_NAME_KEY in entries && entries[TABLE_NAME_KEY] != "" then Right(entries[TABLE_NAME_KEY])
      else Left("PRODUCTS_TABLE_NAME not found in secrets")
  }

  /** The secret store, with a count of the look-ups made. */
  class SecretStore {
    const secret: Either<string, map<string, string>>
    var lookups: nat

    constructor (secret: Either<string, map<string, string>>)
      ensures this.secret == secret && lookups == 0
    {
      this.secret := secret;
      lookups := 0;
    }

    method GetTableName() returns (r: Either<string, string>)
      modifies this
      ensures lookups == old(lookups) + 1
      ensures r == TableNameOf(secret)
    {
      lookups := lookups + 1;
      r := TableNameOf(secret);
    }
  }

  /** The identifier generator and the clock. Identifiers are never handed
      out twice; clock readings never go backwards. */
  class Runtime {
    var issued: seq<string>
    var now: Instant

    predicate Valid()
      reads this
    {
      forall i :: 0 <= i < |issued| ==> issued[i] == NatText(i)
    }

    constructor ()
      ensures Valid() && issued == []
    {
      issued := [];
      now := 0;
    }

    /** `uuidv4()`. */
    method NewId() returns (id: string)
      requires Valid()
      modifies this
      ensures Valid()
      ensures issued == old(issued) + [id] && id !in old(issued)
      ensures now == old(now)
    {
      id := NatText(|issued|);
      forall i | 0 <= i < |issued|
        ensures issued[i] != id
      {
        if issued[i] == id {
          NatTextInjective(i, |issued|);
        }
      }
      issued := issued + [id];
    }

    /** `new Date()`. */
    method Now() returns (t: Instant)
      modifies this
      ensures issued == old(issued)
      ensures old(now) <= t == now
    {
      t :| t >= now;
      now := t;
    }
  }

  // --------------------------------------------------------------- validation

  /** A row that failed validation: its 1-based position and the messages. */
  datatype RowError = RowError(row: nat, error: seq<string>)

  /** What validating one row yields: its messages, or the product. */
  function Check(row: ParsedRow): Either<seq<string>, ProductInput>
  {
    match Validate(row)
    case Left(issues) => Left(Messages(issues))
    case Right(input) => Right(input)
  }

  function Checks(rows: seq<ParsedRow>): (outs: seq<Either<seq<string>, ProductInput>>)
    ensures |outs| == |rows|
    ensures forall i :: 0 <= i < |rows| ==> outs[i] == Check(rows[i])
  {
    seq(|rows|, i requires 0 <= i < |rows| => Check(rows[i]))
  }

  /** The successful values, in order. */
  function Successes<V>(outs: seq<Either<seq<string>, V>>): seq<V>
  {
    if outs == [] then []
    else
      var last := outs[|outs| - 1];
      Successes(outs[..|outs| - 1]) + (if last.Right? then [last.value] else [])
  }

  /** The failures, in order, each with its 1-based position. */
  function Failures<V>(outs: seq<Either<seq<string>, V>>): seq<RowError>
  {
    if outs == [] then []
    else
      var last := outs[|outs| - 1];
      Failures(outs[..|outs| - 1]) + (if last.Left? then [RowError(|outs|, last.error)] else [])
  }

  /** The validated rows, in source order. */
  function ValidInputs(rows: seq<ParsedRow>): seq<ProductInput>
  {
    Successes(Checks(rows))
  }

  /** The failed rows, in source order, numbered from 1. */
  function RowErrors(rows: seq<ParsedRow>): seq<RowError>
  {
    Failures(Checks(rows))
  }

  lemma AppendOutcome<V>(outs: seq<Either<seq<string>, V>>, x: Either<seq<string>, V>)
    ensures Successes(outs + [x]) == Successes(outs) + (if x.Right? then [x.value] else [])
    ensures Failures(outs + [x]) == Failures(outs) + (if x.Left? then [RowError(|outs| + 1, x.error)] else [])
  {
    assert (outs + [x])[..|outs|] == outs;
  }

  /** Each outcome lands in exactly one of the two lists. */
  lemma {:induction false} EveryOutcomeAccountedFor<V>(outs: seq<Either<seq<string>, V>>)
    ensures |Successes(outs)| + |Failures(outs)| == |outs|
  {
    if outs != [] {
      EveryOutcomeAccountedFor(outs[..|outs| - 1]);
    }
  }

  /** Each row lands in exactly one of the two lists. */
  lemma EveryRowAccountedFor(rows: seq<ParsedRow>)
    ensures |ValidInputs(rows)| + |RowErrors(rows)| == |rows|
  {
    EveryOutcomeAccountedFor(Checks(rows));
  }

  /** `e` reports position `e.row` (1-based) of `outs`, a failure with the
      messages `e.error`. */
  predicate ReportsFailure<V>(outs: seq<Either<seq<string>, V>>, e: RowError)
  {
    1 <= e.row <= |outs| && outs[e.row - 1] == Left(e.error)
  }

  /** Failures are reported at their 1-based positions, in strictly
      increasing order. */
  lemma {:induction false} FailuresNumbered<V>(outs: seq<Either<seq<string>, V>>)
    ensures forall k :: 0 <= k < |Failures(outs)| ==> ReportsFailure(outs, Failures(outs)[k])
    ensures forall k, l :: 0 <= k < l < |Failures(outs)| ==> Failures(outs)[k].row < Failures(outs)[l].row
  {
    if outs != [] {
      var init := outs[..|outs| - 1];
      var es := Failures(init);
      FailuresNumbered(init);
      forall k | 0 <= k < |es|
        ensures ReportsFailure(outs, es[k])
      {
        assert outs[es[k].row - 1] == init[es[k].row - 1];
      }
    }
  }

  /** Every failure is reported. */
  lemma {:induction false} FailureReported<V>(outs: seq<Either<seq<string>, V>>, i: nat)
    requires i < |outs| && outs[i].Left?
    ensures RowError(i + 1, outs[i].error) in Failures(outs)
  {
    if i < |outs| - 1 {
      FailureReported(outs[..|outs| - 1], i);
    }
  }

  /** Every failing row is reported. */
  lemma FailingRowReported(rows: seq<ParsedRow>, i: nat)
    requires i < |rows| && Validate(rows[i]).Left?
    ensures RowError(i + 1, Messages(Validate(rows[i]).error)) in RowErrors(rows)
  {
    FailureReported(Checks(rows), i);
  }

  function Inputs(records: seq<ProductRecord>): (inputs: seq<ProductInput>)
    ensures |inputs| == |records|
    ensures forall k :: 0 <= k < |records| ==> inputs[k] == records[k].Input()
  {
    seq(|records|, k requires 0 <= k < |records| => records[k].Input())
  }

  function Ids(records: seq<ProductRecord>): (ids: seq<string>)
    ensures |ids| == |records|
    ensures forall k :: 0 <= k < |records| ==> ids[k] == records[k].id
  {
    seq(|records|, k requires 0 <= k < |records| => records[k].id)
  }

  /** The record a valid row becomes: the row's values with a fresh
      identifier, the current time as `createdAt` and no `updatedAt`. `t` is
      the clock reading behind `createdAt`. */
  method StampRecord(input: ProductInput, rt: Runtime) returns (record: ProductRecord, ghost t: Instant)
    requires rt.Valid()
    modifies rt
    ensures rt.Valid()
    ensures record.Input() == input && record.updatedAt == None && record.createdAt == ToIso(t)
    ensures rt.issued == old(rt.issued) + [record.id] && record.id !in old(rt.issued)
    ensures old(rt.now) <= t == rt.now
  {
    var id := rt.NewId();
    var now := rt.Now();
    record := ProductRecord(id, input.name, input.description, input.price, input.quantity, ToIso(now), None);
    t := now;
  }

  /** `validated` holds the values, and `errors` the failures, of the first
      `i` outcomes. */
  ghost predicate ValidatedUpTo(outs: seq<Either<seq<string>, ProductInput>>, i: nat,
                                validated: seq<ProductRecord>, errors: seq<RowError>)
  {
    i <= |outs| && Inputs(validated) == Successes(outs[..i]) && errors == Failures(outs[..i])
  }

  /** A valid outcome adds its record. */
  lemma ValidatedAccept(outs: seq<Either<seq<string>, ProductInput>>, i: nat,
                        validated: seq<ProductRecord>, errors: seq<RowError>, record: ProductRecord)
    requires ValidatedUpTo(outs, i, validated, errors) && i < |outs|
    requires outs[i].Right? && record.Input() == outs[i].value
    ensures ValidatedUpTo(outs, i + 1, validated + [record], errors)
  {
    assert outs[..i + 1] == outs[..i] + [outs[i]];
    AppendOutcome(outs[..i], outs[i]);
    assert Inputs(validated + [record]) == Inputs(validated) + [record.Input()];
  }

  /** A failed outcome adds its error, numbered from 1. */
  lemma ValidatedReject(outs: seq<Either<seq<string>, ProductInput>>, i: nat,
                        validated: seq<ProductRecord>, errors: seq<RowError>)
    requires ValidatedUpTo(outs, i, validated, errors) && i < |outs| && outs[i].Left?
    ensures ValidatedUpTo(outs, i + 1, validated, errors + [RowError(i + 1, outs[i].error)])
  {
    assert outs[..i + 1] == outs[..i] + [outs[i]];
    AppendOutcome(outs[..i], outs[i]);
  }

  /** The records carry no `updatedAt`, identifiers outside `issued`, and
      `createdAt` stamps from non-decreasing clock readings `times` between
      `lo` and `hi`. */
  ghost predicate Stamped(records: seq<ProductRecord>, times: seq<Instant>, issued: seq<string>, lo: Instant, hi: Instant)
  {
    |times| == |records|
    && (forall k :: 0 <= k < |records| ==>
          records[k].updatedAt == None && records[k].id !in issued && records[k].createdAt == ToIso(times[k]))
    && (forall k, l :: 0 <= k < l < |times| ==> times[k] <= times[l])
    && (forall k :: 0 <= k < |times| ==> lo <= times[k] <= hi)
  }

  /** A record stamped no earlier than the others extends the stamped run. */
  lemma StampedAppend(records: seq<ProductRecord>, times: seq<Instant>, issued: seq<string>, lo: Instant, hi: Instant,
                      record: ProductRecord, t: Instant)
    requires Stamped(records, times, issued, lo, hi)
    requires record.updatedAt == None && record.id !in issued && record.createdAt == ToIso(t)
    requires lo <= hi <= t
    ensures Stamped(records + [record], times + [t], issued, lo, t)
  {
    var rs, ts := records + [record], times + [t];
    forall k | 0 <= k < |rs|
      ensures rs[k].updatedAt == None && rs[k].id !in issued && rs[k].createdAt == ToIso(ts[k])
    {
      if k < |records| {
        assert rs[k] == records[k] && ts[k] == times[k];
      }
    }
    forall k, l | 0 <= k < l < |ts|
      ensures ts[k] <= ts[l]
    {
      if l < |times| {
        assert ts[k] == times[k] && ts[l] == times[l];
      }
    }
  }

  /** The validation loop: every row is validated on its own; a valid row
      becomes a record with a fresh identifier, the current time as
      `createdAt` and no `updatedAt`; a failing row becomes an error with its
      1-based position. `times` are the clock readings behind `createdAt`. */
  method ValidateRows(outs: seq<Either<seq<string>, ProductInput>>, rt: Runtime)
    returns (validated: seq<ProductRecord>, errors: seq<RowError>, ghost times: seq<Instant>)
    requires rt.Valid()
    modifies rt
    ensures rt.Valid()
    ensures Inputs(validated) == Successes(outs)
    ensures errors == Failures(outs)
    ensures rt.issued == old(rt.issued) + Ids(validated)
    ensures old(rt.now) <= rt.now
    ensures Stamped(validated, times, old(rt.issued), old(rt.now), rt.now)
  {
    validated, errors, times := [], [], [];
    var i := 0;
    while i < |outs|
      invariant 0 <= i <= |outs|
      invariant rt.Valid()
      invariant ValidatedUpTo(outs, i, validated, errors)
      invariant rt.issued == old(rt.issued) + Ids(validated)
      invariant old(rt.now) <= rt.now
      invariant Stamped(validated, times, old(rt.issued), old(rt.now), rt.now)
    {
      if outs[i].Right? {
        ghost var before := rt.now;
        var record, t := StampRecord(outs[i].value, rt);
        ValidatedAccept(outs, i, validated, errors, record);
        StampedAppend(validated, times, old(rt.issued), old(rt.now), before, record, t);
        assert Ids(validated + [record]) == Ids(validated) + [record.id];
        validated := validated + [record];
        times := times + [t];
      } else {
        ValidatedReject(outs, i, validated, errors);
        errors := errors + [RowError(i + 1, outs[i].error)];
      }
      i := i + 1;
    }
    assert outs[..i] == outs;
  }

  // ------------------------------------------------------------- per file

  /** Why a file failed. */
  datatype FileError =
    | MalformedKey
    | FetchFailed(reason: string)
    | FileTooLarge(size: nat)
    | UnsupportedFormat(extension: string)
    | UnreadableWorkbook(reason: string)
    | NoValidProducts
    | TableNameUnavailable(reason: string)
    | WriteFailed(reason: string)

  /** The "Processing complete" record of a file. */
  datatype Summary = Summary(
    bucket: string, key: string,
    totalRecords: nat, successfulInserts: nat, failedValidations: nat)

  /** The stages before validation: the fetch, the size check (strictly
      greater than the limit fails) and the choice of parser by extension. */
  function ParseStage(fetched: Either<string, FileBytes>, key: string): (r: Either<FileError, seq<ParsedRow>>)
    ensures fetched.Left? ==> r == Left(FetchFailed(fetched.error))
    ensures (r.Left? && r.error.FileTooLarge?) <==> fetched.Right? && fetched.value.length > MAX_SIZE
    ensures r.Left? && r.error.UnsupportedFormat? <==>
      fetched.Right? && fetched.value.length <= MAX_SIZE && GetFileExtension(key) !in {"csv", "xlsx", "xls"}
    ensures r.Right? ==> fetched.Right? && fetched.value.length <= MAX_SIZE
    ensures r.Right? && GetFileExtension(key) == "csv" ==> r.value == ParseCsv(fetched.value.csv)
    ensures r.Right? && GetFileExtension(key) != "csv" ==>
      GetFileExtension(key) in {"xlsx", "xls"} && fetched.value.workbook.Right?
      && r.value == ParseExcel(fetched.value.workbook.value)
  {
    match fetched
    case Left(e) => Left(FetchFailed(e))
    case Right(bytes) =>
      var extension := GetFileExtension(key);
      if bytes.length > MAX_SIZE then Left(FileTooLarge(bytes.length))
      else if extension == "csv" then Right(ParseCsv(bytes.csv))
      else if extension == "xlsx" || extension == "xls" then
        match bytes.workbook
        case Left(e) => Left(UnreadableWorkbook(e))
        case Right(wb) => Right(ParseExcel(wb))
      else Left(UnsupportedFormat(extension))
  }

  /** A file of exactly 10 MiB is not rejected for its size. */
  lemma ExactLimitAccepted(bytes: FileBytes, key: string)
    requires bytes.length == 10 * 1024 * 1024
    ensures !(ParseStage(Right(bytes), key).Left? && ParseStage(Right(bytes), key).error.FileTooLarge?)
  {
  }

  /** What a successful write stage leaves behind: the requests for the
      chunks of `written`, in order, the last one possibly failed. */
  predicate WroteChunks(before: seq<BatchWriteCommand>, after: seq<BatchWriteCommand>, faults: map<nat, string>,
                        table: string, written: seq<ProductRecord>, ok: bool)
  {
    SentPrefix(before, after, Commands(table, ChunksOf(written, BATCH_SIZE)), faults, ok)
  }

  /** What fetching and parsing `bucket`/`key` yields. */
  function FileStage(objects: map<ObjectRef, Option<FileBytes>>, bucket: string, key: string): Either<FileError, seq<ParsedRow>>
  {
    ParseStage(Fetch(objects, ObjectRef(bucket, key)), key)
  }

  /** The fetch and parse stages of one object. */
  method LoadRows(bucket: string, key: string, store: ObjectStore) returns (stage: Either<FileError, seq<ParsedRow>>)
    modifies store
    ensures store.fetched == old(store.fetched) + [ObjectRef(bucket, key)]
    ensures stage == FileStage(store.objects, bucket, key)
  {
    var fetched := store.GetFileContent(bucket, key);
    stage := ParseStage(fetched, key);
  }

  /** What the write stages leave behind for a non-empty batch of records:
      the table-name look-up fails, or the chunks are sent in order until
      one fails. `failure` is the error the stages end with, if any. */
  predicate WriteStages(secret: Either<string, map<string, string>>, faults: map<nat, string>,
                        before: seq<BatchWriteCommand>, after: seq<BatchWriteCommand>,
                        records: seq<ProductRecord>, failure: Option<FileError>)
  {
    match TableNameOf(secret)
    case Left(reason) => failure == Some(TableNameUnavailable(reason)) && after == before
    case Right(table) =>
      WroteChunks(before, after, faults, table, records, failure.None?)
      && (failure.Some? ==> |after| > 0 && |after| - 1 in faults && failure == Some(WriteFailed(faults[|after| - 1])))
  }

  /** The table-name look-up and the batch write of a non-empty batch. */
  method WriteRecords(records: seq<ProductRecord>, secrets: SecretStore, db: DocClient)
    returns (failure: Option<FileError>)
    modifies secrets, db
    ensures secrets.lookups == old(secrets.lookups) + 1
    ensures WriteStages(secrets.secret, db.faults, old(db.sent), db.sent, records, failure)
  {
    var table := secrets.GetTableName();
    if table.Left? {
      return Some(TableNameUnavailable(table.error));
    }
    var sent := BatchWrite(db, table.value, records);
    if sent.Fail? {
      return Some(WriteFailed(sent.error));
    }
    failure := None;
  }

  /** What one pass of the handler's loop did, seen from outside: the
      requests sent and the table-name look-ups made, before and after the
      pass, the records it validated and its outcome. */
  datatype Step = Step(sentBefore: seq<BatchWriteCommand>, sentAfter: seq<BatchWriteCommand>,
                       lookupsBefore: nat, lookupsAfter: nat,
                       written: seq<ProductRecord>, result: Either<FileError, Summary>)

  /** The pass made no look-up and sent nothing. */
  predicate Quiet(s: Step)
  {
    s.sentAfter == s.sentBefore && s.lookupsAfter == s.lookupsBefore
  }

  /** The loop body's promise for the object `bucket`/`key`: a failing fetch
      or parse ends the file with its error; otherwise the records are the
      valid rows in order; no valid row ends the file before any look-up or
      request; otherwise one look-up and the write stages follow, their
      failure is the file's, and success reports the counts. */
  predicate FileProcessed(objects: map<ObjectRef, Option<FileBytes>>, secret: Either<string, map<string, string>>,
                          faults: map<nat, string>, bucket: string, key: string, s: Step)
  {
    match FileStage(objects, bucket, key)
    case Left(e) => s.result == Left(e) && s.written == [] && Quiet(s)
    case Right(rows) =>
      Inputs(s.written) == ValidInputs(rows)
      && if s.written == [] then s.result == Left(NoValidProducts) && Quiet(s)
         else
           s.lookupsAfter == s.lookupsBefore + 1
           && WriteStages(secret, faults, s.sentBefore, s.sentAfter, s.written,
                          if s.result.Left? then Some(s.result.error) else None)
           && (s.result.Right? ==> s.result.value == Summary(bucket, key, |rows|, |s.written|, |RowErrors(rows)|))
  }

  /** One iteration of the handler's loop body, for one object: fetch and
      parse, validate every row, give up when nothing is valid, look up the
      table name, write the records in chunks and report the counts. */
  method ProcessFile(bucket: string, key: string, store: ObjectStore, secrets: SecretStore, db: DocClient, rt: Runtime)
    returns (r: Either<FileError, Summary>, written: seq<ProductRecord>, ghost times: seq<Instant>)
    requires rt.Valid()
    modifies store, secrets, db, rt
    ensures rt.Valid()
    ensures store.fetched == old(store.fetched) + [ObjectRef(bucket, key)]
    ensures FileProcessed(store.objects, secrets.secret, db.faults, bucket, key,
                          Step(old(db.sent), db.sent, old(secrets.lookups), secrets.lookups, written, r))
    ensures rt.issued == old(rt.issued) + Ids(written)
    ensures old(rt.now) <= rt.now
    ensures Stamped(written, times, old(rt.issued), old(rt.now), rt.now)
  {
    times := [];
    var stage := LoadRows(bucket, key, store);
    if stage.Left? {
      return Left(stage.error), [], times;
    }
    var rows := stage.value;
    var errors;
    written, errors, times := ValidateRows(Checks(rows), rt);
    if |written| == 0 {
      return Left(NoValidProducts), written, times;
    }
    var failure := WriteRecords(written, secrets, db);
    if failure.Some? {
      return Left(failure.value), written, times;
    }
    r := Right(Summary(bucket, key, |rows|, |written|, |errors|));
  }

  /** A file's summary names its object, and its counts add up: every
      parsed row was either written or reported. */
  lemma SummaryAddsUp(objects: map<ObjectRef, Option<FileBytes>>, secret: Either<string, map<string, string>>,
                      faults: map<nat, string>, bucket: string, key: string, s: Step)
    requires FileProcessed(objects, secret, faults, bucket, key, s) && s.result.Right?
    ensures s.result.value.bucket == bucket && s.result.value.key == key
    ensures s.result.value.totalRecords == s.result.value.successfulInserts + s.result.value.failedValidations
  {
    EveryRowAccountedFor(FileStage(objects, bucket, key).value);
  }

  /** An object that is not in the store fails the file with `NoSuchKey`,
      before any look-up or request. */
  lemma MissingObjectFails(objects: map<ObjectRef, Option<FileBytes>>, secret: Either<string, map<string, string>>,
                           faults: map<nat, string>, bucket: string, key: string, s: Step)
    requires FileProcessed(objects, secret, faults, bucket, key, s) && ObjectRef(bucket, key) !in objects
    ensures s.result == Left(FetchFailed("NoSuchKey")) && s.written == [] && Quiet(s)
  {
  }

  /** A file that succeeds had every valid row written: the table name was
      found, and the requests for all chunks of the records went out, in
      order and without fault. */
  lemma SuccessWroteEverything(objects: map<ObjectRef, Option<FileBytes>>, secret: Either<string, map<string, string>>,
                               faults: map<nat, string>, bucket: string, key: string, s: Step)
    requires FileProcessed(objects, secret, faults, bucket, key, s) && s.result.Right?
    ensures FileStage(objects, bucket, key).Right?
    ensures Inputs(s.written) == ValidInputs(FileStage(objects, bucket, key).value) && s.written != []
    ensures TableNameOf(secret).Right?
    ensures s.sentAfter == s.sentBefore + Commands(TableNameOf(secret).value, ChunksOf(s.written, BATCH_SIZE))
    ensures forall j :: |s.sentBefore| <= j < |s.sentAfter| ==> j !in faults
    ensures Items(s.sentAfter[|s.sentBefore|..], TableNameOf(secret).value) == s.written
  {
    var cmds := Commands(TableNameOf(secret).value, ChunksOf(s.written, BATCH_SIZE));
    assert s.sentAfter[|s.sentBefore|..] == cmds[..|s.sentAfter| - |s.sentBefore|] == cmds;
    CommandsCarryItems(TableNameOf(secret).value, s.written);
  }

  /** A pass never withdraws a request: what was sent before it is a prefix
      of what was sent after it. */
  lemma FileSendsOnlyMore(objects: map<ObjectRef, Option<FileBytes>>, secret: Either<string, map<string, string>>,
                          faults: map<nat, string>, bucket: string, key: string, s: Step)
    requires FileProcessed(objects, secret, faults, bucket, key, s)
    ensures s.sentBefore <= s.sentAfter
    ensures s.lookupsBefore <= s.lookupsAfter <= s.lookupsBefore + 1
  {
  }

  // ------------------------------------------------------------- per event

  /** One object-created notification: the bucket and the URL-encoded key. */
  datatype EventRecord = EventRecord(bucket: string, key: string)

  /** `key.replace(/\+/g, " ")`. */
  function PlusToSpace(s: string): (r: string)
    ensures |r| == |s|
    ensures forall i :: 0 <= i < |s| ==> r[i] == (if s[i] == '+' then ' ' else s[i])
  {
    seq(|s|, i requires 0 <= i < |s| => if s[i] == '+' then ' ' else s[i])
  }

  function SummaryRefs(summaries: seq<Summary>): (refs: seq<ObjectRef>)
    ensures |refs| == |summaries|
    ensures forall i :: 0 <= i < |summaries| ==> refs[i] == ObjectRef(summaries[i].bucket, summaries[i].key)
  {
    seq(|summaries|, i requires 0 <= i < |summaries| => ObjectRef(summaries[i].bucket, summaries[i].key))
  }

  /** The decoded key of an event record: `+` read as a space, then URL
      decoding, which may fail. */
  function DecodedKey(record: EventRecord, decodeUri: string -> Option<string>): Option<string>
  {
    decodeUri(PlusToSpace(record.key))
  }

  /** The promise of one pass for `record`: a key that does not decode fails
      the pass with nothing written, looked up or sent; a decoded key names
      the object the pass processes. */
  predicate RecordProcessed(record: EventRecord, decodeUri: string -> Option<string>,
                            objects: map<ObjectRef, Option<FileBytes>>, secret: Either<string, map<string, string>>,
                            faults: map<nat, string>, s: Step)
  {
    match DecodedKey(record, decodeUri)
    case None => s.result == Left(MalformedKey) && s.written == [] && Quiet(s)
    case Some(key) => FileProcessed(objects, secret, faults, record.bucket, key, s)
  }

  /** One pass of the handler's loop: decode the key, then process the
      object it names. */
  method ProcessRecord(record: EventRecord, decodeUri: string -> Option<string>,
                       store: ObjectStore, secrets: SecretStore, db: DocClient, rt: Runtime)
    returns (r: Either<FileError, Summary>, ghost written: seq<ProductRecord>)
    requires rt.Valid()
    modifies store, secrets, db, rt
    ensures rt.Valid()
    ensures DecodedKey(record, decodeUri).None? ==> store.fetched == old(store.fetched)
    ensures DecodedKey(record, decodeUri).Some? ==>
      store.fetched == old(store.fetched) + [ObjectRef(record.bucket, DecodedKey(record, decodeUri).value)]
    ensures RecordProcessed(record, decodeUri, store.objects, secrets.secret, db.faults,
                            Step(old(db.sent), db.sent, old(secrets.lookups), secrets.lookups, written, r))
    ensures r.Right? ==> store.fetched == old(store.fetched) + [ObjectRef(r.value.bucket, r.value.key)]
    ensures NoUpdatedAt(written)
    ensures rt.issued == old(rt.issued) + Ids(written)
    ensures old(rt.now) <= rt.now
  {
    var decoded := decodeUri(PlusToSpace(record.key));
    if decoded.None? {
      return Left(MalformedKey), [];
    }
    var files;
    ghost var times;
    r, files, times := ProcessFile(record.bucket, decoded.value, store, secrets, db, rt);
    written := files;
    if r.Right? {
      SummaryAddsUp(store.objects, secrets.secret, db.faults, record.bucket, decoded.value,
                    Step(old(db.sent), db.sent, old(secrets.lookups), secrets.lookups, written, r));
    }
  }

  /** The passes in `trace` ran one after the other: the history of
      requests and the look-up count went from `sent0`/`lookups0` to
      `sent1`/`lookups1` through them. */
  ghost predicate Chained(trace: seq<Step>, sent0: seq<BatchWriteCommand>, sent1: seq<BatchWriteCommand>,
                          lookups0: nat, lookups1: nat)
  {
    if trace == [] then sent1 == sent0 && lookups1 == lookups0
    else
      var last := trace[|trace| - 1];
      Chained(trace[..|trace| - 1], sent0, last.sentBefore, lookups0, last.lookupsBefore)
      && last.sentAfter == sent1 && last.lookupsAfter == lookups1
  }

  /** The records of all passes, in order. */
  ghost function AllWritten(trace: seq<Step>): seq<ProductRecord>
  {
    if trace == [] then [] else AllWritten(trace[..|trace| - 1]) + trace[|trace| - 1].written
  }

  /** Passes that each only add requests only add requests. */
  lemma {:induction false} ChainedSendsOnlyMore(trace: seq<Step>, sent0: seq<BatchWriteCommand>, sent1: seq<BatchWriteCommand>,
                                                lookups0: nat, lookups1: nat)
    requires Chained(trace, sent0, sent1, lookups0, lookups1)
    requires forall k :: 0 <= k < |trace| ==> trace[k].sentBefore <= trace[k].sentAfter
    requires forall k :: 0 <= k < |trace| ==> trace[k].lookupsBefore <= trace[k].lookupsAfter
    ensures sent0 <= sent1 && lookups0 <= lookups1
  {
    if trace != [] {
      var last := trace[|trace| - 1];
      ChainedSendsOnlyMore(trace[..|trace| - 1], sent0, last.sentBefore, lookups0, last.lookupsBefore);
    }
  }

  /** None of the records has an `updatedAt`. */
  predicate NoUpdatedAt(records: seq<ProductRecord>)
  {
    forall k :: 0 <= k < |records| ==> records[k].updatedAt == None
  }

  lemma NoUpdatedAtAppend(records: seq<ProductRecord>, more: seq<ProductRecord>)
    requires NoUpdatedAt(records) && NoUpdatedAt(more)
    ensures NoUpdatedAt(records + more)
  {
    forall k | 0 <= k < |records + more|
      ensures (records + more)[k].updatedAt == None
    {
      if k >= |records| {
        assert (records + more)[k] == more[k - |records|];
      }
    }
  }

  /** Appending a pass to a chain of passes that ends where it starts. */
  lemma ChainedAppend(trace: seq<Step>, s: Step, sent0: seq<BatchWriteCommand>, lookups0: nat)
    requires Chained(trace, sent0, s.sentBefore, lookups0, s.lookupsBefore)
    ensures Chained(trace + [s], sent0, s.sentAfter, lookups0, s.lookupsAfter)
    ensures AllWritten(trace + [s]) == AllWritten(trace) + s.written
    ensures forall issued: seq<string> ::
      issued + Ids(AllWritten(trace + [s])) == issued + Ids(AllWritten(trace)) + Ids(s.written)
  {
    assert (trace + [s])[..|trace|] == trace;
    assert Ids(AllWritten(trace) + s.written) == Ids(AllWritten(trace)) + Ids(s.written);
  }

  /** Each pass of `trace` kept the promise for its record of `event`. */
  ghost predicate Handled(event: seq<EventRecord>, decodeUri: string -> Option<string>,
                          objects: map<ObjectRef, Option<FileBytes>>, secret: Either<string, map<string, string>>,
                          faults: map<nat, string>, trace: seq<Step>)
  {
    |trace| <= |event|
    && forall j :: 0 <= j < |trace| ==> RecordProcessed(event[j], decodeUri, objects, secret, faults, trace[j])
  }

  /** The first passes of `trace` succeeded with the `summaries`, in order. */
  ghost predicate Reported(trace: seq<Step>, summaries: seq<Summary>)
  {
    |summaries| <= |trace| && forall j :: 0 <= j < |summaries| ==> trace[j].result == Right(summaries[j])
  }

  lemma HandledAppend(event: seq<EventRecord>, decodeUri: string -> Option<string>,
                      objects: map<ObjectRef, Option<FileBytes>>, secret: Either<string, map<string, string>>,
                      faults: map<nat, string>, trace: seq<Step>, s: Step)
    requires Handled(event, decodeUri, objects, secret, faults, trace) && |trace| < |event|
    requires RecordProcessed(event[|trace|], decodeUri, objects, secret, faults, s)
    ensures Handled(event, decodeUri, objects, secret, faults, trace + [s])
  {
    forall j | 0 <= j < |trace| + 1
      ensures RecordProcessed(event[j], decodeUri, objects, secret, faults, (trace + [s])[j])
    {
      if j < |trace| {
        assert (trace + [s])[j] == trace[j];
      }
    }
  }

  lemma ReportedAppend(trace: seq<Step>, summaries: seq<Summary>, s: Step)
    requires Reported(trace, summaries) && |summaries| == |trace| && s.result.Right?
    ensures Reported(trace + [s], summaries + [s.result.value])
  {
    forall j | 0 <= j < |summaries| + 1
      ensures (trace + [s])[j].result == Right((summaries + [s.result.value])[j])
    {
      if j < |summaries| {
        assert (trace + [s])[j] == trace[j] && (summaries + [s.result.value])[j] == summaries[j];
      }
    }
  }

  /** The handler as a whole never withdraws a request and makes at most one
      look-up per record. */
  lemma HandlerSendsOnlyMore(event: seq<EventRecord>, decodeUri: string -> Option<string>,
                             objects: map<ObjectRef, Option<FileBytes>>, secret: Either<string, map<string, string>>,
                             faults: map<nat, string>, trace: seq<Step>,
                             sent0: seq<BatchWriteCommand>, sent1: seq<BatchWriteCommand>, lookups0: nat, lookups1: nat)
    requires Handled(event, decodeUri, objects, secret, faults, trace)
    requires Chained(trace, sent0, sent1, lookups0, lookups1)
    ensures sent0 <= sent1 && lookups0 <= lookups1
  {
    forall k | 0 <= k < |trace|
      ensures trace[k].sentBefore <= trace[k].sentAfter && trace[k].lookupsBefore <= trace[k].lookupsAfter
    {
      if DecodedKey(event[k], decodeUri).Some? {
        FileSendsOnlyMore(objects, secret, faults, event[k].bucket, DecodedKey(event[k], decodeUri).value, trace[k]);
      }
    }
    ChainedSendsOnlyMore(trace, sent0, sent1, lookups0, lookups1);
  }

  /** One more pass that keeps its record's promise, continues the chain
      of requests and look-ups, issues the ids of its records and stamps
      none of them updated extends every fact the handler keeps. */
  lemma PassAppend(event: seq<EventRecord>, decodeUri: string -> Option<string>,
                   objects: map<ObjectRef, Option<FileBytes>>, secret: Either<string, map<string, string>>,
                   faults: map<nat, string>, trace: seq<Step>, s: Step,
                   sent0: seq<BatchWriteCommand>, lookups0: nat, issued0: seq<string>, issued: seq<string>)
    requires Handled(event, decodeUri, objects, secret, faults, trace) && |trace| < |event|
    requires RecordProcessed(event[|trace|], decodeUri, objects, secret, faults, s)
    requires Chained(trace, sent0, s.sentBefore, lookups0, s.lookupsBefore)
    requires issued == issued0 + Ids(AllWritten(trace)) + Ids(s.written)
    requires NoUpdatedAt(AllWritten(trace)) && NoUpdatedAt(s.written)
    ensures Handled(event, decodeUri, objects, secret, faults, trace + [s])
    ensures Chained(trace + [s], sent0, s.sentAfter, lookups0, s.lookupsAfter)
    ensures issued == issued0 + Ids(AllWritten(trace + [s]))
    ensures NoUpdatedAt(AllWritten(trace + [s]))
  {
    ChainedAppend(trace, s, sent0, lookups0);
    HandledAppend(event, decodeUri, objects, secret, faults, trace, s);
    NoUpdatedAtAppend(AllWritten(trace), s.written);
  }

  /** When the first record names an object missing from the store, its
      pass fails with `NoSuchKey`, and no look-up and no request is made. */
  lemma MissingObjectStopsHandler(event: seq<EventRecord>, decodeUri: string -> Option<string>,
                                  objects: map<ObjectRef, Option<FileBytes>>, secret: Either<string, map<string, string>>,
                                  faults: map<nat, string>, trace: seq<Step>,
                                  sent0: seq<BatchWriteCommand>, sent1: seq<BatchWriteCommand>, lookups0: nat, lookups1: nat)
    requires Handled(event, decodeUri, objects, secret, faults, trace) && |trace| == 1
    requires Chained(trace, sent0, sent1, lookups0, lookups1)
    requires DecodedKey(event[0], decodeUri).Some?
    requires ObjectRef(event[0].bucket, DecodedKey(event[0], decodeUri).value) !in objects
    ensures trace[0].result == Left(FetchFailed("NoSuchKey"))
    ensures sent1 == sent0 && lookups1 == lookups0
  {
    assert RecordProcessed(event[0], decodeUri, objects, secret, faults, trace[0]);
    MissingObjectFails(objects, secret, faults, event[0].bucket, DecodedKey(event[0], decodeUri).value, trace[0]);
    assert trace[..0] == [];
  }

  /** `handler(event)`: the records are processed in order; the first one
      that fails ends the call with its error, and no later record is
      fetched. `decodeUri` is `decodeURIComponent`, `None` where it throws.
      `failedAt` is the position of the failing record (the event length on
      success); `trace` holds what each pass did, the failing one included. */
  method Handler(event: seq<EventRecord>, decodeUri: string -> Option<string>,
                 store: ObjectStore, secrets: SecretStore, db: DocClient, rt: Runtime)
    returns (r: Outcome<FileError>, summaries: seq<Summary>, ghost failedAt: nat, ghost trace: seq<Step>)
    requires rt.Valid()
    modifies store, secrets, db, rt
    ensures rt.Valid()
    ensures r.Pass? ==> failedAt == |event| == |trace|
    ensures r.Fail? ==> failedAt < |event| && |trace| == failedAt + 1 && trace[failedAt].result == Left(r.error)
    ensures |summaries| == failedAt
    ensures Handled(event, decodeUri, store.objects, secrets.secret, db.faults, trace)
    ensures Reported(trace, summaries)
    ensures Chained(trace, old(db.sent), db.sent, old(secrets.lookups), secrets.lookups)
    ensures rt.issued == old(rt.issued) + Ids(AllWritten(trace))
    ensures NoUpdatedAt(AllWritten(trace))
    ensures r.Fail? && DecodedKey(event[failedAt], decodeUri).None? ==>
      store.fetched == old(store.fetched) + SummaryRefs(summaries)
    ensures r.Fail? && DecodedKey(event[failedAt], decodeUri).Some? ==>
      store.fetched == old(store.fetched) + SummaryRefs(summaries)
                       + [ObjectRef(event[failedAt].bucket, DecodedKey(event[failedAt], decodeUri).value)]
    ensures r.Pass? ==> store.fetched == old(store.fetched) + SummaryRefs(summaries)
  {
    summaries, trace := [], [];
    var i := 0;
    while i < |event|
      invariant 0 <= i <= |event|
      invariant rt.Valid()
      invariant |summaries| == i == |trace|
      invariant Handled(event, decodeUri, store.objects, secrets.secret, db.faults, trace)
      invariant Reported(trace, summaries)
      invariant Chained(trace, old(db.sent), db.sent, old(secrets.lookups), secrets.lookups)
      invariant rt.issued == old(rt.issued) + Ids(AllWritten(trace))
      invariant NoUpdatedAt(AllWritten(trace))
      invariant store.fetched == old(store.fetched) + SummaryRefs(summaries)
    {
      ghost var sent, lookups, issued := db.sent, secrets.lookups, rt.issued;
      var outcome, written := ProcessRecord(event[i], decodeUri, store, secrets, db, rt);
      ghost var step := Step(sent, db.sent, lookups, secrets.lookups, written, outcome);
      PassAppend(event, decodeUri, store.objects, secrets.secret, db.faults, trace, step,
                 old(db.sent), old(secrets.lookups), old(rt.issued), rt.issued);
      if outcome.Left? {
        trace := trace + [step];
        return Fail(outcome.error), summaries, i, trace;
      }
      ReportedAppend(trace, summaries, step);
      SummaryRefsAppend(old(store.fetched), summaries, outcome.value);
      trace := trace + [step];
      summaries := summaries + [outcome.value];
      i := i + 1;
    }
    r, failedAt := Pass, |event|;
  }

  lemma SummaryRefsAppend(fetched: seq<ObjectRef>, summaries: seq<Summary>, x: Summary)
    ensures fetched + SummaryRefs(summaries + [x]) == fetched + SummaryRefs(summaries) + [ObjectRef(x.bucket, x.key)]
  {
    assert SummaryRefs(summaries + [x]) == SummaryRefs(summaries) + [ObjectRef(x.bucket, x.key)];
  }
}
