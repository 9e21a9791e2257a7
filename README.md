# Pricing catalog: bulk import and catalog domain, in Dafny

This project models two parts of a small pricing catalog and proves properties of them.

**The bulk file importer** (`pricing-file-processor`) is a function run once per object-created notification. For each notification record it does the following:

1. It decodes the object key.
2. It fetches the object.
3. It rejects files over 10 MiB.
4. It picks a parser by the key's extension: CSV for `csv`, a spreadsheet for `xlsx` or `xls`. Any other extension is refused.
5. It normalises every row to `{name, description, price, quantity}`.
6. It validates each row against the product schema. Each valid row becomes a record with a fresh id, a creation time and no `updatedAt`. Each invalid row is reported with its 1-based row number and its messages.
7. It refuses a file with no valid row.
8. It reads the table name from the secret store.
9. It writes the records in requests of at most 25 items, in order.

The first failure of any record ends the whole call with that error. Later records are not fetched.

**The catalog domain** (`backend`) consists of:
- the `Product` and `Client` entities, whose setters update one property and stamp `updatedAt`;
- the list-backed repositories for products and clients. Clients exist in two versions: `backend/test/repositories/in-memory-clients-repository.ts` and `backend/test/repositories/in-memory-clients.repository.ts`. Their `create`, `findById`, `findByEmail`, `update` and `delete` are identical, and one class, `Repositories.InMemoryClientsRepository`, models both. The newer one adds paging with `findAll`;
- the register and delete use-cases for products and clients;
- the mappers between entities and stored items, whose dates are ISO text;
- the builder of table-scan parameters.

Modules, one per file:
- **Shared helpers:**
  - `Wrappers`: `Option`, `Either`, `Outcome`.
  - `Text`: ASCII lower-casing, decimal numerals, joining.
  - `JsValues`: the dynamic values rows hold (including the `Date` objects the CSV library makes of date-like cells), their truthiness, `String(v)` and `Number(v)`.
  - `Timestamps`: instants, ISO text, and a `Date` that may be invalid.
- **Importer:** `ProductSchema`, `Parsers`, `S3Keys`, `BatchWriter`, `ImportHandler`.
- **Catalog domain:** `Entities`, `Repositories`, `UseCases`, `Mappers`, `ScanParams`.

How the model handles the outside world:
- **External services** are objects whose behaviour is fixed when they are built, and which keep a log of the calls made to them:
  - the object store (`ObjectStore`, with its fetch log);
  - the secret store (`SecretStore`, which counts look-ups);
  - the key-value store's document client (`DocClient`). It keeps the history of requests sent, and a map from a request's position in that history to the error it fails with.
- **Identifiers and the clock** of the importer form a `Runtime` object. It never hands out an id twice, and its clock never goes backwards.
- **The catalog domain** takes the new id and the current time as parameters. The password hasher is an object with a given hash function, which counts its calls.

Where the code and the written design of the importer disagree, the model follows the code:
- **Failure handling:** one failing file re-throws and ends the handler. The remaining notification records are not processed.
- **Duplicate records:** records are not deduplicated by id or by content. Every valid row is written, with a fresh id.
- **Keys without a dot:** for such a key, the "extension" is the whole key, lower-cased, not the empty text. Only a key ending in `.` gives the empty extension.

## Model

| member | source | states |
|---|---|---|
| Text.Lower | pricing-file-processor/src/services/s3.service.ts:24 | lower-casing keeps the length, maps each character to its lower-case form and yields lower-case text |
| Text.LowerOfLower | pricing-file-processor/src/services/s3.service.ts:24 | lower-casing twice is lower-casing once |
| JsValues.TruthyTextNonEmpty | pricing-file-processor/src/parsers/csv.parser.ts:17-18 | `String(v)` of a truthy cell is never empty, so `String(row.name \|\| "")` is empty exactly when the cell is falsy |
| JsValues.NumberOfNatText | pricing-file-processor/src/parsers/csv.parser.ts:19-20 | `Number` of the decimal text of a natural n is n |
| JsValues.LetterTextIsNaN | pricing-file-processor/src/parsers/csv.parser.ts:19-20 | `Number` of text that starts with a lower-case letter is NaN |
| JsValues.NonDigitStartIsNaN | pricing-file-processor/src/parsers/csv.parser.ts:19-20 | a literal starting with neither a digit nor a point is NaN |
| JsValues.DateText | pricing-file-processor/src/parsers/csv.parser.ts:9-18 | `String(date)` of a `Date` cell made by `dynamicTyping` begins with the weekday of its day, counted from Thursday 1 January 1970, and ends with the UTC zone " GMT+0000 (Coordinated Universal Time)" |
| JsValues.EpochIsNewYear1970 | pricing-file-processor/src/parsers/csv.parser.ts:9-18 | the calendar conversion behind `String(date)` puts time value 0 on 1970-01-01 |
| JsValues.LeapDay2024 | pricing-file-processor/src/parsers/csv.parser.ts:9-18 | the calendar conversion has 29 February in the leap year 2024, followed by 1 March |
| Timestamps.IsoRoundTrip | backend/src/infra/database/dynamo/mappers/dynamo-product.mapper.ts:12-26 | parsing the ISO text of an instant gives the instant back |
| Timestamps.DateOf | backend/src/infra/database/dynamo/mappers/dynamo-product.mapper.ts:12 | `new Date(text)` is a valid date exactly when the text is a decimal numeral, the model's rendering of an instant with leading zeros allowed |
| Timestamps.DateIso | backend/src/infra/database/dynamo/mappers/dynamo-product.mapper.ts:26 | `toISOString()` throws a RangeError exactly on an invalid date, else yields non-empty text |
| Timestamps.DateRoundTrip | backend/src/infra/database/dynamo/mappers/dynamo-product.mapper.ts:12-26 | a valid date written as ISO text and read back is the same date |
| ProductSchema.NameIssues | pricing-file-processor/src/validators/product-schema.validator.ts:4 | "Name is required" is reported exactly when the name is empty |
| ProductSchema.DescriptionIssues | pricing-file-processor/src/validators/product-schema.validator.ts:5 | "Description is required" exactly when the description is empty |
| ProductSchema.PriceIssues | pricing-file-processor/src/validators/product-schema.validator.ts:6 | a NaN price is "not a number"; otherwise the price is refused exactly when it is not positive |
| ProductSchema.QuantityIssues | pricing-file-processor/src/validators/product-schema.validator.ts:7 | a NaN quantity is "not a number"; a non-integer and a negative quantity are each reported; no issue exactly when it is an integer >= 0 |
| ProductSchema.Issues | pricing-file-processor/src/validators/product-schema.validator.ts:3-8 | there is no issue exactly when all four fields pass |
| ProductSchema.TextIssuesReported | pricing-file-processor/src/validators/product-schema.validator.ts:4-5 | the row's issues name the name, or the description, exactly when that field is empty |
| ProductSchema.PriceIssuesReported | pricing-file-processor/src/validators/product-schema.validator.ts:6 | the row's issues include each price issue exactly when that price check fails |
| ProductSchema.QuantityIssuesReported | pricing-file-processor/src/validators/product-schema.validator.ts:7 | the row's issues include each quantity issue exactly when that quantity check fails |
| ProductSchema.Validate | pricing-file-processor/src/validators/product-schema.validator.ts:3-8 | a row is accepted exactly when all four fields pass, with its values unchanged; a refused row carries at least one issue, and each check's issue exactly when that check fails |
| ProductSchema.Messages | pricing-file-processor/src/validators/product-schema.validator.ts:4-7 | one message per issue, in order, each the schema's text for it |
| Parsers.TextOr | pricing-file-processor/src/parsers/csv.parser.ts:17-18 | `String(v \|\| "")`: empty for a falsy cell, the cell's text otherwise |
| Parsers.NumberOr | pricing-file-processor/src/parsers/csv.parser.ts:19-20 | `Number(v \|\| 0)`: 0 for a falsy cell, the cell's number otherwise |
| Parsers.NormalizeRow | pricing-file-processor/src/parsers/csv.parser.ts:16-21 | each of the four fields comes from its own column only; absent or falsy columns give "" and 0 |
| Parsers.NaNOrigins | pricing-file-processor/src/parsers/csv.parser.ts:9-20 | a NaN price or quantity comes only from a text cell that is not a number or from an invalid `Date` cell |
| Parsers.ParseCsv | pricing-file-processor/src/parsers/csv.parser.ts:5-22 | one normalised row per data row, in order, whatever warnings the parse produced |
| Parsers.FirstSheetRows | pricing-file-processor/src/parsers/excel.parser.ts:7-8 | the rows of the sheet named first, none when the workbook has no sheet |
| Parsers.ParseExcel | pricing-file-processor/src/parsers/excel.parser.ts:5-16 | one normalised row per row of the first sheet, in order |
| Parsers.OnlyFirstSheetMatters | pricing-file-processor/src/parsers/excel.parser.ts:7 | two workbooks with the same first sheet parse the same |
| S3Keys.SplitLastIsLastSegment | pricing-file-processor/src/services/s3.service.ts:24 | the last part of `split(".")` is the text after the last dot |
| S3Keys.GetFileExtension | pricing-file-processor/src/services/s3.service.ts:23-25 | the result is the lower-cased tail of the key after its last dot (the whole key when there is none), holds no dot and is lower case |
| S3Keys.NoDotGivesWholeKey | pricing-file-processor/src/services/s3.service.ts:24 | a key without a dot gives the whole key, lower-cased |
| S3Keys.TrailingDotGivesEmpty | pricing-file-processor/src/services/s3.service.ts:24 | a key ending in a dot gives the empty extension |
| S3Keys.ExtensionIdempotent | pricing-file-processor/src/services/s3.service.ts:23-25 | the extension of an extension is itself |
| BatchWriter.ChunksFlatten | pricing-file-processor/src/services/dynamodb.service.ts:42-48 | the chunks concatenated give the input back: nothing lost, added or reordered |
| BatchWriter.ChunksSizes | pricing-file-processor/src/services/dynamodb.service.ts:42-48 | every chunk holds 1 to `size` items, all but the last exactly `size` |
| BatchWriter.ChunksCount | pricing-file-processor/src/services/dynamodb.service.ts:43-47 | the number of chunks is the ceiling of length / size; no chunk for no items |
| BatchWriter.FiftyThreeRecords | pricing-file-processor/src/services/dynamodb.service.ts:22-23 | 53 records make requests of 25, 25 and 3 items |
| BatchWriter.ChunkArray | pricing-file-processor/src/services/dynamodb.service.ts:42-48 | the loop builds exactly the chunks `ChunksOf` specifies |
| BatchWriter.PutRequests | pricing-file-processor/src/services/dynamodb.service.ts:28-30 | one put request per item, carrying that item, in order |
| BatchWriter.CommandsCarryItems | pricing-file-processor/src/services/dynamodb.service.ts:27-36 | the requests for the chunks carry exactly the items, in order, all under the table name |
| BatchWriter.DocClient.Send | pricing-file-processor/src/services/dynamodb.service.ts:38 | the request joins the history; it fails exactly when the service faults at that position |
| BatchWriter.BatchWrite | pricing-file-processor/src/services/dynamodb.service.ts:20-40 | the requests for the chunks are sent in order until the first one that fails; success exactly when all went out without fault; the error is that request's |
| ImportHandler.ObjectStore.GetFileContent | pricing-file-processor/src/services/s3.service.ts:12-21 | the fetch is logged; a missing object or a response without a body fails |
| ImportHandler.TableNameOf | pricing-file-processor/src/services/secrets-manager.service.ts:26-35 | the table name is found exactly when the secret was read and has a non-empty `PRODUCTS_TABLE_NAME`; a failed read passes its error on |
| ImportHandler.SecretStore.GetTableName | pricing-file-processor/src/services/secrets-manager.service.ts:26-35 | one more look-up; the result is `TableNameOf` of the secret |
| ImportHandler.Runtime.NewId | pricing-file-processor/src/index.ts:76 | the new id was never issued before |
| ImportHandler.Runtime.Now | pricing-file-processor/src/index.ts:78 | the clock reading is not earlier than any before it |
| ImportHandler.EveryOutcomeAccountedFor | pricing-file-processor/src/index.ts:71-87 | successes plus failures number the rows validated |
| ImportHandler.EveryRowAccountedFor | pricing-file-processor/src/index.ts:71-87 | valid products plus row errors number the parsed rows |
| ImportHandler.FailuresNumbered | pricing-file-processor/src/index.ts:82-85 | row errors carry strictly increasing 1-based row numbers within the row count |
| ImportHandler.FailureReported | pricing-file-processor/src/index.ts:81-86 | a failed outcome at position i is reported as row i + 1 with its messages |
| ImportHandler.FailingRowReported | pricing-file-processor/src/index.ts:72-86 | a row the schema refuses is reported as row i + 1 with the schema's messages for it |
| ImportHandler.ValidatedAccept | pricing-file-processor/src/index.ts:73-80 | a valid row adds its record to the values of the rows before it |
| ImportHandler.ValidatedReject | pricing-file-processor/src/index.ts:81-86 | a refused row adds its error, numbered from 1, to the failures of the rows before it |
| ImportHandler.StampRecord | pricing-file-processor/src/index.ts:75-80 | the record is the row's values with a never-issued id, `createdAt` from the current clock reading and no `updatedAt` |
| ImportHandler.StampedAppend | pricing-file-processor/src/index.ts:75-80 | a record stamped no earlier than the others keeps the records' stamps in order and their ids fresh |
| ImportHandler.ValidateRows | pricing-file-processor/src/index.ts:67-87 | the records are the accepted rows' values in order, each with a fresh id, a creation time from the clock and no `updatedAt`; the errors are exactly the failures |
| ImportHandler.ParseStage | pricing-file-processor/src/index.ts:34-63 | a failed fetch, a file over 10 MiB and an unsupported extension fail in that order; `csv` takes the CSV parser, `xlsx`/`xls` the spreadsheet parser |
| ImportHandler.ExactLimitAccepted | pricing-file-processor/src/index.ts:45-50 | a file of exactly 10 MiB is not refused for its size |
| ImportHandler.LoadRows | pricing-file-processor/src/index.ts:34-63 | one fetch of the object, then the parse stage on what it returned |
| ImportHandler.WriteRecords | pricing-file-processor/src/index.ts:105-110 | one table-name look-up; when it fails nothing is sent; otherwise the batch write's requests, with its error |
| ImportHandler.ProcessFile | pricing-file-processor/src/index.ts:30-119 | `FileProcessed` holds of the pass: the fetch or parse error ends the file with nothing looked up or sent; otherwise the records are the valid rows in order, freshly stamped; no valid row gives `NoValidProducts` with no look-up or request; otherwise one look-up and the write stages follow, their failure is the file's, and success reports the counts |
| ImportHandler.SummaryAddsUp | pricing-file-processor/src/index.ts:112-119 | a successful file's summary names its bucket and key, and total = successful inserts + failed validations |
| ImportHandler.MissingObjectFails | pricing-file-processor/src/index.ts:34 | an object missing from the store fails its file with `NoSuchKey`, with nothing looked up or sent |
| ImportHandler.SuccessWroteEverything | pricing-file-processor/src/index.ts:96-110 | a successful file found the table name and sent the requests for all chunks of its records, in order and without fault; they carry exactly the records |
| ImportHandler.FileSendsOnlyMore | pricing-file-processor/src/index.ts:105-110 | a pass never withdraws a request and makes at most one look-up |
| ImportHandler.PlusToSpace | pricing-file-processor/src/index.ts:27 | every `+` of the key becomes a space and nothing else changes |
| ImportHandler.ProcessRecord | pricing-file-processor/src/index.ts:25-127 | an undecodable key fails with `MalformedKey` and nothing fetched, looked up or sent; a decoded key is fetched and `FileProcessed` holds of the object it names; the ids issued are the records'; no record has an `updatedAt` |
| ImportHandler.Handler | pricing-file-processor/src/index.ts:22-129 | records are processed in order, each pass keeping its record's promise; the passes before `failedAt` succeeded with the returned summaries; the failing pass's error is the call's and no later object is fetched; the request history and look-ups run through the passes one after the other; the ids issued are those of all records validated; none of the records validated has an `updatedAt` |
| ImportHandler.ChainedSendsOnlyMore | pricing-file-processor/src/index.ts:25-128 | passes that each only add requests and look-ups add them over the whole chain |
| ImportHandler.HandlerSendsOnlyMore | pricing-file-processor/src/index.ts:25-128 | over the handled records no request is withdrawn and the look-up count never decreases |
| ImportHandler.ChainedAppend | pricing-file-processor/src/index.ts:25 | one more pass extends the chain of requests and look-ups, and adds its records to those validated |
| ImportHandler.HandledAppend | pricing-file-processor/src/index.ts:25 | a pass that keeps its record's promise extends the handled prefix |
| ImportHandler.ReportedAppend | pricing-file-processor/src/index.ts:25 | a successful pass extends the summaries in order |
| ImportHandler.NoUpdatedAtAppend | pricing-file-processor/src/index.ts:75-80 | records without `updatedAt` joined to more such records have none either |
| ImportHandler.PassAppend | pricing-file-processor/src/index.ts:25-128 | one more pass that keeps its record's promise extends the handled passes, the chain of requests and look-ups, the ids issued and the absence of `updatedAt` |
| ImportHandler.SummaryRefsAppend | pricing-file-processor/src/index.ts:25-34 | a successful pass adds the object it names to the fetch log |
| ImportHandler.MissingObjectStopsHandler | pricing-file-processor/src/index.ts:25-127 | when the first record names a missing object, its pass fails with `NoSuchKey` and nothing is looked up or sent |
| Entities.ProductPropsOf | backend/src/domain/pricing/enterprise/product.ts:63-72 | the given properties, `createdAt` defaulting to now |
| Entities.Product.constructor | backend/src/domain/pricing/enterprise/product.ts:63-72 | the new product has the given id and `ProductPropsOf` its draft |
| Entities.ApplyProductEdit | backend/src/domain/pricing/enterprise/product.ts:19-61 | a setter assigns its own property only, stamps `updatedAt` with now and keeps `createdAt` |
| Entities.ProductEditsKeepCreatedAt | backend/src/domain/pricing/enterprise/product.ts:19-61 | after any run of setter calls `createdAt` is unchanged and `updatedAt` is the last call's time |
| Entities.Product.SetName | backend/src/domain/pricing/enterprise/product.ts:19-22 | the properties become `ApplyProductEdit` of a name edit |
| Entities.Product.SetDescription | backend/src/domain/pricing/enterprise/product.ts:28-31 | the properties become `ApplyProductEdit` of a description edit |
| Entities.Product.SetPrice | backend/src/domain/pricing/enterprise/product.ts:37-40 | the properties become `ApplyProductEdit` of a price edit |
| Entities.Product.SetQuantity | backend/src/domain/pricing/enterprise/product.ts:46-49 | the properties become `ApplyProductEdit` of a quantity edit |
| Entities.Product.Touch | backend/src/domain/pricing/enterprise/product.ts:59-61 | only `updatedAt` changes, to now |
| Entities.ClientPropsOf | backend/src/domain/pricing/enterprise/client.ts:45-55 | the given properties, `createdAt` defaulting to now |
| Entities.Client.constructor | backend/src/domain/pricing/enterprise/client.ts:45-55 | the new client has the given id and `ClientPropsOf` its draft |
| Entities.ApplyClientEdit | backend/src/domain/pricing/enterprise/client.ts:18-43 | a setter assigns its own property only, stamps `updatedAt` with now and keeps `createdAt` |
| Entities.ClientEditsKeepCreatedAt | backend/src/domain/pricing/enterprise/client.ts:18-43 | after any run of setter calls `createdAt` is unchanged and `updatedAt` is the last call's time |
| Entities.Client.SetName | backend/src/domain/pricing/enterprise/client.ts:18-21 | the properties become `ApplyClientEdit` of a name edit |
| Entities.Client.SetEmail | backend/src/domain/pricing/enterprise/client.ts:27-30 | the properties become `ApplyClientEdit` of an email edit |
| Entities.Client.SetPassword | backend/src/domain/pricing/enterprise/client.ts:36-39 | the properties become `ApplyClientEdit` of a password edit |
| Entities.Client.Touch | backend/src/domain/pricing/enterprise/client.ts:41-43 | only `updatedAt` changes, to now |
| Repositories.IndexOf | backend/test/repositories/in-memory-products.repository.ts:36 | `findIndex`: none exactly when the value is absent, else the position of its first occurrence |
| Repositories.RemoveAtShifts | backend/test/repositories/in-memory-products.repository.ts:38-40 | after `splice(i, 1)` the earlier elements stay and the later ones move down one place |
| Repositories.RemoveAtKeepsOthers | backend/test/repositories/in-memory-products.repository.ts:38-40 | `splice(i, 1)` keeps the others in order and takes exactly one copy of the element out |
| Repositories.RemoveOnlyOccurrence | backend/test/repositories/in-memory-products.repository.ts:35-41 | with no repeats, the spliced-out value is gone and there are still no repeats |
| Repositories.ProductIds | backend/test/repositories/in-memory-products.repository.ts:12 | the ids of the products, position by position |
| Repositories.LowerNames | backend/test/repositories/in-memory-products.repository.ts:22 | the lower-cased names of the products, position by position |
| Repositories.SpliceProductIds | backend/test/repositories/in-memory-products.repository.ts:35-41 | splicing a product out splices its id out of the id list |
| Repositories.SpliceLowerNames | backend/test/repositories/in-memory-products.repository.ts:35-41 | splicing a product out splices its name out of the name list |
| Repositories.RemoveProductAt | backend/test/repositories/in-memory-products.repository.ts:35-41 | splicing a product out splices its id and its name out |
| Repositories.InMemoryProductsRepository.constructor | backend/test/repositories/in-memory-products.repository.ts:5 | the repository starts empty |
| Repositories.InMemoryProductsRepository.Create | backend/test/repositories/in-memory-products.repository.ts:7-9 | the product is appended |
| Repositories.InMemoryProductsRepository.FindById | backend/test/repositories/in-memory-products.repository.ts:11-19 | none exactly when no product has the id, else the first one that does |
| Repositories.InMemoryProductsRepository.FindByName | backend/test/repositories/in-memory-products.repository.ts:21-29 | none exactly when no name matches ignoring case, else the first product whose does |
| Repositories.InMemoryProductsRepository.Update | backend/test/repositories/in-memory-products.repository.ts:31-33 | always fails with "Method not implemented." |
| Repositories.InMemoryProductsRepository.Delete | backend/test/repositories/in-memory-products.repository.ts:35-41 | an unknown id changes nothing; otherwise the first product with it is spliced out |
| Repositories.ClientIds | backend/test/repositories/in-memory-clients.repository.ts:17 | the ids of the clients, position by position |
| Repositories.Emails | backend/test/repositories/in-memory-clients.repository.ts:27 | the emails of the clients, position by position |
| Repositories.SpliceClientIds | backend/test/repositories/in-memory-clients.repository.ts:53-59 | splicing a client out splices its id out of the id list |
| Repositories.SpliceEmails | backend/test/repositories/in-memory-clients.repository.ts:53-59 | splicing a client out splices its email out of the email list |
| Repositories.RemoveClientAt | backend/test/repositories/in-memory-clients.repository.ts:53-59 | splicing a client out splices its id and its email out |
| Repositories.SliceEnd | backend/test/repositories/in-memory-clients.repository.ts:37 | the end `slice` uses is clamped to the array |
| Repositories.PageOf | backend/test/repositories/in-memory-clients.repository.ts:36-47 | the first `limit` clients (all without a limit) and their count; a key exactly when clients were left out, the last returned id; a page that leaves clients out but holds none throws a TypeError |
| Repositories.LimitWithinList | backend/test/repositories/in-memory-clients.repository.ts:36-47 | a limit between 1 and the list length gives exactly that many clients and the last one's id as key |
| Repositories.NoLimitGivesAll | backend/test/repositories/in-memory-clients.repository.ts:37-45 | no limit, or one past the end, gives every client and no key |
| Repositories.InMemoryClientsRepository.constructor | backend/test/repositories/in-memory-clients.repository.ts:10 | the repository starts empty |
| Repositories.InMemoryClientsRepository.Create | backend/test/repositories/in-memory-clients.repository.ts:12-14 | the client is appended |
| Repositories.InMemoryClientsRepository.FindById | backend/test/repositories/in-memory-clients.repository.ts:16-24 | none exactly when no client has the id, else the first one that does |
| Repositories.InMemoryClientsRepository.FindByEmail | backend/test/repositories/in-memory-clients.repository.ts:26-34 | none exactly when no email is equal, else the first client whose is |
| Repositories.InMemoryClientsRepository.Update | backend/test/repositories/in-memory-clients.repository.ts:49-51 | always fails with "Method not implemented." |
| Repositories.InMemoryClientsRepository.Delete | backend/test/repositories/in-memory-clients.repository.ts:53-59 | an unknown id changes nothing; otherwise the first client with it is spliced out |
| UseCases.Hasher.Hash | backend/src/domain/pricing/application/use-cases/register-client.use-case.ts:28 | the hash of the password, one more call counted |
| UseCases.AppendFresh | backend/src/domain/pricing/application/use-cases/register-product.use-case.ts:24-37 | appending a value not yet present keeps a list free of repeats |
| UseCases.RegisterProduct | backend/src/domain/pricing/application/use-cases/register-product.use-case.ts:18-40 | a name already taken, ignoring case, is refused with nothing changed; otherwise a new product with the given fields, created now and never updated, is appended and returned; names stay unique |
| UseCases.DeleteProduct | backend/src/domain/pricing/application/use-cases/delete-product.use-case.ts:14-24 | an unknown id is refused with nothing changed; otherwise exactly that product is spliced out; with unique ids the id is gone |
| UseCases.RegisterClient | backend/src/domain/pricing/application/use-cases/register-client.use-case.ts:21-39 | an email already taken is refused with nothing hashed or changed; otherwise a new client with the hashed password, created now, is appended and returned; emails stay unique |
| UseCases.DeleteClient | backend/src/domain/pricing/application/use-cases/delete-client.ts:14-24 | an unknown id is refused with nothing changed; otherwise exactly that client is spliced out; with unique ids the id is gone |
| Mappers.UpdatedAtOf | backend/src/infra/database/dynamo/mappers/dynamo-product.mapper.ts:13 | absent or empty stored text gives no `updatedAt`, other text is parsed |
| Mappers.UpdatedAtText | backend/src/infra/database/dynamo/mappers/dynamo-product.mapper.ts:27 | no date is written as null; an invalid date throws |
| Mappers.UpdatedAtRoundTrip | backend/src/infra/database/dynamo/mappers/dynamo-product.mapper.ts:13-27 | a valid or absent `updatedAt` survives writing and reading back |
| Mappers.ProductPropsOfItem | backend/src/infra/database/dynamo/mappers/dynamo-product.mapper.ts:5-17 | each property is read from its own stored field, the dates parsed |
| Mappers.ProductToDomain | backend/src/infra/database/dynamo/mappers/dynamo-product.mapper.ts:5-17 | a new product with the stored id and the properties read |
| Mappers.PersistProduct | backend/src/infra/database/dynamo/mappers/dynamo-product.mapper.ts:19-29 | fails exactly when a date is invalid; otherwise every field is copied and the dates written as ISO text |
| Mappers.ProductRoundTrip | backend/src/infra/database/dynamo/mappers/dynamo-product.mapper.ts:5-29 | a product with valid dates, written and read back, has the same id and properties |
| Mappers.ProductItemRoundTrip | backend/src/infra/database/dynamo/mappers/dynamo-product.mapper.ts:5-29 | an item the mapper wrote, read and written again, is unchanged |
| Mappers.ClientPropsOfItem | backend/src/infra/database/dynamo/mappers/dynamo-client.mapper.ts:4-15 | each property is read from its own stored field, the dates parsed |
| Mappers.ClientToDomain | backend/src/infra/database/dynamo/mappers/dynamo-client.mapper.ts:4-15 | a new client with the stored id and the properties read |
| Mappers.PersistClient | backend/src/infra/database/dynamo/mappers/dynamo-client.mapper.ts:17-26 | fails exactly when a date is invalid; otherwise every field is copied and the dates written as ISO text |
| Mappers.ClientRoundTrip | backend/src/infra/database/dynamo/mappers/dynamo-client.mapper.ts:4-26 | a client with valid dates, written and read back, has the same id and properties |
| Mappers.ClientItemRoundTrip | backend/src/infra/database/dynamo/mappers/dynamo-client.mapper.ts:4-26 | an item the mapper wrote, read and written again, is unchanged |
| ScanParams.Clauses | backend/src/infra/database/dynamo/dynamo.service.ts:64-67 | one `#attrN = :valN` equality per filter entry, in entry order |
| ScanParams.PlaceholdersDistinct | backend/src/infra/database/dynamo/dynamo.service.ts:65-66 | different entries get different name and value placeholders |
| ScanParams.NamesOfLookup | backend/src/infra/database/dynamo/dynamo.service.ts:64-73 | `#attrN` names the N-th entry's key, and there is no other name |
| ScanParams.ValuesOfLookup | backend/src/infra/database/dynamo/dynamo.service.ts:64-74 | `:valN` stands for the N-th entry's value, and there is no other value |
| ScanParams.FilterGrows | backend/src/infra/database/dynamo/dynamo.service.ts:64-72 | no entry gives the empty filter, one gives its equality, each further one adds " AND " and its equality |
| ScanParams.BuildScanInput | backend/src/infra/database/dynamo/dynamo.service.ts:47-75 | the table always; the page size only when truthy; the start key whenever given; the filter with its names and values exactly when filters are given |

## Left out

- Network and cloud I/O are not modelled. The object store, the secret store and the key-value store are objects whose answers and failures are fixed when they are built. Retries, timeouts and the service's unprocessed-items answer are not modelled: a request either succeeds or fails.
- The CSV and spreadsheet libraries are not modelled. Their output is given data: the parsed rows, and the parse warnings, which are ignored as in the code. A workbook that cannot be read fails the file. Which CSV cells `dynamicTyping` turns into `Date` objects is the library's decision; the model takes such cells as `DateObject` values. It also lets spreadsheet rows hold them, although `sheet_to_json` with its default options yields none.
- `JsValues.DateText` renders `String(date)` in the UTC time zone. Other time zones are not modelled.
- `decodeURIComponent` is a function parameter: text may decode or fail.
- The id generator is a `Runtime` that hands out distinct ids. Any v4 UUID format is not modelled.
- The clock is modelled as monotonic instants. The catalog domain takes the id and the time as parameters.
- The importer's idempotency service, its content hash and processing id, and the logger are not modelled. They only feed log lines.
- The error's message for a refused row is modelled as the list of the schema's messages, not the JSON text the validation library renders.
- `JsValues.ToNumber` does not model exponent, hexadecimal, binary or octal notation. Such text is NaN in the model.
- `JsValues.NumberText` renders non-integers with at most 20 fraction digits and has no exponent form. Negative zero is not distinguished.
- `Timestamps.ToIso` writes an instant as plain decimal text, not as a calendar date. The round-trip property is the one relied on.
- `Timestamps.ParseIso` and `Timestamps.DateOf` read only that decimal rendering: real ISO calendar text such as `2024-01-01T00:00:00.000Z`, which `new Date` accepts, reads as an invalid date here. So `Mappers.ProductToDomain` and `Mappers.ClientToDomain` read dates correctly only in items this model wrote, and their round-trip lemmas hold for those items only. Instants are natural numbers, so dates before 1970 are not modelled.
- `Text.Lower` lower-cases ASCII letters only; the rest of Unicode is not covered.
- `Repositories.PageOf` takes the limit as an integer. A fractional or NaN limit is not modelled.
- `Repositories.InMemoryClientsRepository.FindAll` has no contract of its own. It returns `PageOf` of the items, whose contract states the behaviour. An incoming continuation key is ignored, as in the code.
- Product quantity in the catalog domain is an integer and price is a real. The JavaScript number's non-integer and NaN cases are not modelled there.
- The `Entity` base class and `UniqueEntityID` are not part of this model: ids are text.
- Getters are field reads and have no members of their own.
- `UseCases.RegisterClient` does not state that the stored password differs from the plain one. That depends on the hash function, which is a parameter.
- `ScanParams.BuildScanInput` takes the filters as a sequence in `Object.entries` order.
- The send of the scan command and the shaping of its response (`dynamo.service.ts` after line 75) are not part of this model.
