# reconfile: the supplier spreadsheet import, in Dafny

reconfile is a Go web service that reconciles a partner's billing export.
Its main path is the supplier import. An uploaded XLSX workbook is
unzipped. Its shared string table and first worksheet are decoded into
rows of exactly 55 texts. The header row is skipped. Every other row is
mapped column by column to the props of a `SupplierEntity`, with cell
converters that never fail (`ToInt`, `ToFloat`, `ToDate`, `ToStringPtr`,
`ToMapPtr`, `Safe`). Each entity is validated against its struct tags.
Valid entities go to the repository's `CreateMany` in batches of at most
1000. The first error a worker records (a rejected row or a failed call)
is reported as a bad request once every row has been handled.

The model also covers the small pure pieces this path relies on:

- entity initialisation (`Entity.Init`), with id and timestamp defaults;
- the user entity and its mutators;
- `SearchResult.LastPage`;
- the request binder's validation messages and its label cache;
- the `AppError` constructors.

One module per source file:

| module | file |
|---|---|
| `XlsxParser` | `xlsx.dfy` |
| `Utils` | `utils.dfy` |
| `ImportSuppliers` | `import.dfy` |
| `Suppliers` | `supplier.dfy` |
| `Users` | `user.dfy` |
| `Contracts` | `contracts.dfy` |
| `Binding` | `binding.dfy` |
| `AppErrors` | `errors.dfy` |

Supporting modules model what those files call:

| module | what it models |
|---|---|
| `Strconv` | `strconv.Atoi` and `FormatInt`, with Go's 64-bit range clamping |
| `Text` | `strings.TrimSpace`, UTF-8 encoding, `strings.Join`, and `fmt.Sprintf` with `%s`/`%v` on text arguments |
| `Validation` | the go-playground validator rules the struct tags use: `required`, `min`, `max`, `omitempty`, `fqdn`, `email`, `numeric` |
| `Chrono` | instants and civil days |
| `Foreign` | the library oracles: `ParseFloat`, `time.Parse`, JSON decoding, and the fqdn and e-mail checks |
| `Wrappers` | `Option` and `Result` |

How the pieces are modelled:

- Code that works by mutation keeps that form:
  - the entities are classes whose methods update their fields;
  - the label cache is a class holding a map;
  - the repository and the one-slot error channel are classes;
  - `colToIndex`, the worksheet and shared-string loops, the producer and
    the worker loop are methods with loop invariants.
- Each of these methods is proved against a function that specifies it:
  `ColumnIndex`, `DecodeSheet`, `SharedStrings`, `XlsxRows`, `DataRows`,
  `Steps`/`RunWorker` and `Import`.
- The properties are proved about those functions.

Two behaviours of the code worth knowing:

- An unreadable shared-string index, or one at or past the end of the
  table, leaves the column's earlier text. That is the last text a cell
  of the same row wrote to it, or "" (`CellWrite`,
  `DecodeCellsLastWriter`). A negative index panics; see "## Findings".
  The model uses the corrected lookup.
- Recording an error never cancels the context. So an import whose
  context is done before any row is handled, with no error recorded,
  returns nil (`CancelledImportSucceeds`).

## Model

| member | source | states |
|---|---|---|
| XlsxParser.LeadingLetters | internal/application/providers/xlsx_parser_provider.go:17 | the `^[A-Z]+` match is the longest all-capital prefix of the reference: nothing after it is a capital |
| XlsxParser.ColToIndex | internal/application/providers/xlsx_parser_provider.go:43-49 | the loop computes the bijective base-26 value of the letters, minus one |
| XlsxParser.ColumnIndexExamples | internal/application/providers/xlsx_parser_provider.go:43-49 | A is 0, Z is 25, AA is 26, BA is 52, BC is 54 and BD is 55, the first index out of range |
| XlsxParser.ColumnIndexSnoc | internal/application/providers/xlsx_parser_provider.go:43-49 | appending letter c gives 26·(index of the prefix + 1) + (c − 'A') |
| XlsxParser.ColumnIndexMonotone | internal/application/providers/xlsx_parser_provider.go:43-49 | over non-empty capital strings the index is strictly increasing in shortlex order (shorter first, then alphabetical) |
| XlsxParser.ColumnIndexInjective | internal/application/providers/xlsx_parser_provider.go:43-49 | two different non-empty capital strings never get the same column |
| XlsxParser.ColumnNameNumber | internal/application/providers/xlsx_parser_provider.go:43-49 | every column number ≥ 1 has a letter name that reads back to it, so every column has a name |
| XlsxParser.ColumnNumberName | internal/application/providers/xlsx_parser_provider.go:43-49 | every non-empty capital string is the name of the number it reads as |
| XlsxParser.CellColumn | internal/application/providers/xlsx_parser_provider.go:129-137 | a cell has a target column exactly when its reference has leading capitals whose index lies in [0, 55) |
| XlsxParser.ResolveShared | internal/application/providers/xlsx_parser_provider.go:139-142 | a shared-string cell resolves exactly when Atoi accepts its value and the index lies inside the table, and then to that entry; this is the corrected version, see Findings |
| XlsxParser.ResolveSharedLiteral | internal/application/providers/xlsx_parser_provider.go:139-142 | a decimal literal inside the table's range resolves to that entry |
| XlsxParser.SharedIndexNegative | internal/application/providers/xlsx_parser_provider.go:140-141 | the value "-1" passes the source's guard and indexes the table at −1; the corrected lookup leaves the column unchanged |
| XlsxParser.ResolveSharedAgrees | internal/application/providers/xlsx_parser_provider.go:139-142 | the lookup as written fails on an index exactly when Atoi reads a negative number; otherwise it agrees with the corrected lookup, keeping the column when it finds nothing |
| XlsxParser.CellWrite | internal/application/providers/xlsx_parser_provider.go:128-145 | a cell writes to its column; a non-shared cell writes its own value and a shared cell writes its resolved entry; a cell writes nothing exactly when it has no column or its shared index does not resolve |
| XlsxParser.DecodeCells | internal/application/providers/xlsx_parser_provider.go:122-146 | a decoded row is always 55 wide |
| XlsxParser.LastWriteSpec | internal/application/providers/xlsx_parser_provider.go:128-146 | the text a column ends with comes from the last cell that writes to it, and no later cell writes to that column |
| XlsxParser.DecodeCellsLastWriter | internal/application/providers/xlsx_parser_provider.go:125-146 | each column of a decoded row holds its last writer's text, or its starting text when no cell writes to it |
| XlsxParser.DecodeRowColumns | internal/application/providers/xlsx_parser_provider.go:125-150 | each row starts from empty texts, so a column no cell writes to is "" |
| XlsxParser.SkippedCellInvisible | internal/application/providers/xlsx_parser_provider.go:129-137 | inserting a skipped cell anywhere in a row does not change the row |
| XlsxParser.DecodeSheet | internal/application/providers/xlsx_parser_provider.go:121-151 | one output row per `row` element, in document order |
| XlsxParser.ParseWorksheet | internal/application/providers/xlsx_parser_provider.go:104-154 | an entry that cannot be decoded is an error; otherwise the loop returns the decoded sheet |
| XlsxParser.FirstEntry | internal/application/providers/xlsx_parser_provider.go:62-70 | the selected entry is the first whose name matches; none is selected only when no name matches |
| XlsxParser.SharedStringsSource | internal/application/providers/xlsx_parser_provider.go:75-102 | with no sharedStrings.xml the table is empty; otherwise the table is the first such entry's `si` texts, in order, or an error if that entry cannot be decoded |
| XlsxParser.ParseSharedStrings | internal/application/providers/xlsx_parser_provider.go:75-102 | the copying loop returns exactly the shared string table |
| XlsxParser.ParseXlsxRows | internal/application/providers/xlsx_parser_provider.go:51-73 | the method returns the archive's decoded rows or the first error in the order zip, shared strings, worksheet |
| XlsxParser.XlsxRowsShape | internal/application/providers/xlsx_parser_provider.go:51-73 | a successful parse has one row per `row` element of the first worksheet entry; every row is 55 wide and holds each column's last written text |
| XlsxParser.XlsxRowsNotFound | internal/application/providers/xlsx_parser_provider.go:62-72 | "worksheet not found" exactly when the archive and its shared strings read and no entry name starts with xl/worksheets/sheet |
| Utils.ToInt | pkg/utils/utils.go:13-19 | "" is 0, and the result always fits in 64 bits, whatever the text |
| Utils.ToIntJunk | pkg/utils/utils.go:13-19 | digits followed by a non-digit ("12a", "1.5", "1,000") are Atoi's syntax error, so the result is 0 |
| Utils.ToIntOutOfRange | pkg/utils/utils.go:13-19 | a signed decimal number outside 64 bits gives the int64 bound on its side, the value Atoi returns with its range error |
| Utils.ToIntLiteral | pkg/utils/utils.go:13-19 | a decimal literal within 64 bits converts to its value |
| Utils.ToIntFormatInt | pkg/utils/utils.go:13-19 | ToInt inverts FormatInt on every 64-bit integer |
| Utils.ToIntNoDigit | pkg/utils/utils.go:13-19 | text with no digit at all converts to 0 |
| Utils.ToIntOverflowBeforeJunk | pkg/utils/utils.go:13-19 | a digit run too large for 64 bits gives the clamped maximum even when junk follows it, because Atoi reports the range error first |
| Utils.Trunc | pkg/utils/utils.go:32-35 | Go's float-to-int conversion truncates toward zero, for either sign |
| Utils.ExcelDateLinear | pkg/utils/utils.go:31-37 | a serial becomes the epoch plus the serial's length in nanoseconds, truncated |
| Utils.ExcelDateWholeDays | pkg/utils/utils.go:29-37 | an integer serial n is midnight n days after 1899-12-30 |
| Utils.ExcelDateDay | pkg/utils/utils.go:31-37 | a non-negative serial falls within the day given by its whole part |
| Utils.ExcelDateCalendar | pkg/utils/utils.go:29 | the epoch is the civil day 1899-12-30, and serial 44197 is 2021-01-01 |
| Utils.FirstParse | pkg/utils/utils.go:59-63 | the result is the parse under the first layout that accepts the text, or the zero time exactly when no layout accepts it |
| Utils.ToDate | pkg/utils/utils.go:39-79 | blank text is the zero time; a number is a serial date; any other text gives the parse under the first layout its shape selects that accepts it, or the zero time when none does |
| Utils.ToDateTrims | pkg/utils/utils.go:40 | surrounding white space never changes the date |
| Utils.ToDateSerial | pkg/utils/utils.go:45-51 | a text that parses as an integer n is midnight of epoch + n, whichever side of 59 it lies |
| Utils.CandidateLayoutsByShape | pkg/utils/utils.go:56-72 | the layout choice depends only on the byte length and the bytes at positions 2, 4, 5, 7 and 10 |
| Utils.CandidateLayoutsAscii | pkg/utils/utils.go:56-72 | on ASCII text, each separator shape selects its own layouts, and any other short length selects none |
| Utils.ToDateIsoDate | pkg/utils/utils.go:66-67 | a yyyy-mm-dd text is its parse under the 2006-01-02 layout, or the zero time when that parse fails |
| Utils.ToDateSlashFallback | pkg/utils/utils.go:59-63 | a dd/mm/yyyy text that does not parse day-first is parsed month-first, and is the zero time if that fails too |
| Utils.ToStringPtr | pkg/utils/utils.go:80-85 | "" is absent; any other text is present with that text |
| Utils.ToStringPtrRoundTrip | pkg/utils/utils.go:80-85 | reading an absent pointer as "" gives back the original text |
| Utils.ToMapPtr | pkg/utils/utils.go:87-96 | "" is absent; any other text gives exactly what the JSON decoder returns, so undecodable text is absent and no error is passed on |
| Utils.Safe | pkg/utils/utils.go:98-103 | an index inside the row reads that cell; an index at or past the end reads "" |
| Validation.CheckRules | internal/domain/entities/supplier_entity.go:74-128 | a field's error is its first failing rule, all rules before it passing; no error exactly when every rule passes |
| Validation.FieldCheck | internal/domain/entities/supplier_entity.go:74-128 | no error exactly when the field passes its tags; a nil pointer without `omitempty` reports its first tag; any other error is the field's first failing tag, every earlier tag holding |
| Validation.ValidateStruct | internal/domain/entities/supplier_entity.go:192-194 | no errors exactly when every field passes; the first error belongs to the first failing field; at most one error per field |
| Validation.ValidateStructPasses | internal/domain/entities/supplier_entity.go:192-194 | validation succeeds exactly when every field passes its rules |
| Validation.ValidateStructFirst | internal/domain/entities/supplier_entity.go:192-194 | the first error reported is that of the first failing field in declaration order |
| Suppliers.SupplierTagged | internal/domain/entities/supplier_entity.go:74-128 | the 55 validated fields, each with its tag rules, in declaration order |
| Suppliers.SupplierFieldIff | internal/domain/entities/supplier_entity.go:74-128 | each field passes its tags exactly when its plain statement holds: required text non-empty, max=255 text at most 255 long, an absent omitempty field passes, required dates non-zero, the domain name an fqdn |
| Suppliers.SupplierValidIff | internal/domain/entities/supplier_entity.go:74-128 | a supplier validates exactly when all 55 field statements hold |
| Suppliers.MissingPartnerIdFirst | internal/domain/entities/supplier_entity.go:74 | an empty PartnerId is always the first error, reported as `required` on PartnerId |
| Suppliers.NewSupplierOutcome | internal/domain/entities/supplier_entity.go:131-197 | construction fails exactly when validation fails, with a non-empty error list; otherwise the props are copied unchanged and the entity fields follow Init |
| Suppliers.NewSupplierEntity | internal/domain/entities/supplier_entity.go:131-197 | the method returns a fresh entity whose record is NewSupplier's result, or NewSupplier's errors |
| Suppliers.SupplierEntity.Update | internal/domain/entities/supplier_entity.go:199-258 | every business field is replaced, UpdatedAt is set, id and the other timestamps are kept, and the errors are those of validating the new data |
| Users.UserTagged | internal/domain/entities/user_entity.go:23-26 | the four validated fields, in order |
| Users.UserFieldIff | internal/domain/entities/user_entity.go:23-26 | each user field passes exactly when its plain statement holds |
| Users.UserValidIff | internal/domain/entities/user_entity.go:23-26 | a user validates exactly when name is 3..255 long, the email is an e-mail, the password is 6..255 long and a present refresh token is at most 255 long |
| Users.BoundedTextPasses | internal/domain/entities/user_entity.go:23-25 | `required,min=lo,max=255` on a text holds exactly when lo ≤ length ≤ 255 |
| Users.ShortNameFirst | internal/domain/entities/user_entity.go:23 | a non-empty name shorter than 3 is the first error, as `min` with param 3 |
| Users.ShortPasswordRejected | internal/domain/entities/user_entity.go:25 | a password shorter than 6 never validates |
| Users.NewUserOutcome | internal/domain/entities/user_entity.go:29-44 | construction fails exactly when the rules fail; otherwise the props are copied and the entity fields follow Init |
| Users.NewUserEntity | internal/domain/entities/user_entity.go:29-44 | the method returns a fresh entity whose record is NewUser's result, or NewUser's errors |
| Users.UserEntity.Update | internal/domain/entities/user_entity.go:46-53 | only Name, Email and UpdatedAt change; the change stays applied even when validation then fails |
| Users.UserEntity.UpdatePassword | internal/domain/entities/user_entity.go:55-60 | only Password and UpdatedAt change, and the errors validate the new state |
| Users.UserEntity.UpdateRefreshToken | internal/domain/entities/user_entity.go:62-67 | only RefreshToken and UpdatedAt change, and the errors validate the new state |
| Contracts.InitId | internal/domain/contracts/entity.go:19-23 | a given non-empty id is kept; a missing or empty one is replaced by the generated id |
| Contracts.InitTimestamps | internal/domain/contracts/entity.go:17-37 | given timestamps are kept; missing ones share one `now`, so they are equal when both are missing; DeletedAt is copied as given |
| Contracts.Entity.Init | internal/domain/contracts/entity.go:16-38 | Init writes exactly the four entity fields as InitFields says |
| Contracts.SearchResult.LastPage | internal/domain/contracts/searchable.go:28-40 | PerPage 0 or Total 0 gives 1; the result is at least 1 for non-negative inputs; for positive inputs the last page is the one that holds the last item |
| Contracts.LastPageCeiling | internal/domain/contracts/searchable.go:32-38 | for a positive page size the result is ⌈Total / PerPage⌉, but never 0 |
| Binding.TmplHasParamTwoSlots | internal/adapters/httpx/binding_validator.go:15-85 | a tag takes a param exactly when its message template has two slots: gte, lte, min, max and oneof |
| Binding.ResolveFieldLabel | internal/adapters/httpx/binding_validator.go:87-98 | a known field gets its label; an unknown name stands for itself |
| Binding.BuildErrorMessageShape | internal/adapters/httpx/binding_validator.go:64-76 | an unknown tag gives the generic message with the label; a one-slot template gives label + text; a two-slot template fills in the param, or Go's missing-argument mark when the param is empty |
| Binding.FieldLabelsDomain | internal/adapters/httpx/binding_validator.go:105-113 | the label map holds exactly the struct's field names |
| Binding.FieldLabelsValue | internal/adapters/httpx/binding_validator.go:105-113 | a field's label is its `label` tag when non-empty, else its name |
| Binding.ResolveFieldLabelOfStruct | internal/adapters/httpx/binding_validator.go:87-113 | for a struct with distinct field names, a field name resolves to that field's label, and any other name to itself |
| Binding.LabelCache.GetOrCacheFieldLabels | internal/adapters/httpx/binding_validator.go:100-117 | the labels returned are always the type's label map; a cached type leaves the cache unchanged; a new type is stored once |
| Binding.RequestContext.Error | internal/adapters/httpx/binding_validator.go:54-56 | each call appends one error to the request's list |
| Binding.ValidationMessages | internal/adapters/httpx/binding_validator.go:50-53 | one message per validation error, in order |
| Binding.BindAndValidate | internal/adapters/httpx/binding_validator.go:45-62 | success exactly when binding succeeds; validation errors add one 422 error with a message per error, other failures add one with the default message, and no DTO is returned; the label cache gains the DTO type's label map exactly when there is a validation error to label, and is otherwise unchanged |
| Binding.CollectMessages | internal/adapters/httpx/binding_validator.go:50-53 | the message loop yields one message per validation error, in order, each built from the type's label map, and leaves that map cached |
| AppErrors.ConstructorsWellPaired | internal/domain/errors/errors.go:30-84 | each constructor pairs its status code with its type: 500, 400, 404, 409, 403, 401, 422, and no two types share a code |
| AppErrors.TypeNamesDistinct | internal/domain/errors/errors.go:10-18 | the type names are pairwise distinct |
| AppErrors.SingleMessageError | internal/domain/errors/errors.go:26-76 | a single-message error's text is that message |
| AppErrors.UnprocessableKeepsMessages | internal/domain/errors/errors.go:78-84 | the message list is kept verbatim; its text starts with the first message and is as long as the messages plus the "; " separators |
| AppErrors.ErrorAppend | internal/domain/errors/errors.go:26-28 | one more message extends the text by "; " and that message |
| ImportSuppliers.MapRowColumn | internal/application/usecases/supplier/import_suppliers_usecase.go:78-134 | field k of the props is column k converted by its fixed converter; a missing column converts "" |
| ImportSuppliers.UndatedRowRejected | internal/application/usecases/supplier/import_suppliers_usecase.go:78-141 | a row whose column 18 does not read as a date is always rejected |
| ImportSuppliers.ShortRowRejected | internal/application/usecases/supplier/import_suppliers_usecase.go:78-141 | a row of 18 cells or fewer is always rejected |
| ImportSuppliers.Offered | internal/application/usecases/supplier/import_suppliers_usecase.go:136-139 | after a non-blocking send the channel is full, and an error already held stays |
| ImportSuppliers.Candidate | internal/application/usecases/supplier/import_suppliers_usecase.go:78-141 | a data row is rejected exactly when NewSupplierEntity rejects its mapped props, and then with the first of the validator's errors (the `ve[0]` the report reads); an accepted row is NewSupplierEntity's entity |
| ImportSuppliers.ErrorSlot.TrySend | internal/application/usecases/supplier/import_suppliers_usecase.go:136-139 | the channel keeps the first error it is offered |
| ImportSuppliers.SupplierSink.CreateMany | internal/application/usecases/supplier/import_suppliers_usecase.go:143-152 | the repository records the batch and answers with its scripted outcome |
| ImportSuppliers.RunWorkerSpec | internal/application/usecases/supplier/import_suppliers_usecase.go:59-157 | at the end no batch is pending; every call carries 1..1000 records and every call but the last exactly 1000; the calls concatenate to the accepted rows in order; the errors sent are the rejected rows' errors and the failed calls' errors, in order; the channel holds the first |
| ImportSuppliers.RunWorkerQuiet | internal/application/usecases/supplier/import_suppliers_usecase.go:59-157 | the channel stays empty exactly when no row is rejected and no call fails |
| ImportSuppliers.SlotKept | internal/application/usecases/supplier/import_suppliers_usecase.go:136-149 | once an error is held, no later row or call replaces it |
| ImportSuppliers.FirstRowRejected | internal/application/usecases/supplier/import_suppliers_usecase.go:135-141 | a rejected first data row is the error the import reports |
| ImportSuppliers.BuildRow | internal/application/usecases/supplier/import_suppliers_usecase.go:78-134 | the worker builds row k's entity or error |
| ImportSuppliers.HandleRow | internal/application/usecases/supplier/import_suppliers_usecase.go:135-152 | one loop iteration moves the batch, the repository calls and the channel as one worker step |
| ImportSuppliers.FlushRest | internal/application/usecases/supplier/import_suppliers_usecase.go:62-71 | the deferred flush calls the repository only for a non-empty batch |
| ImportSuppliers.Worker | internal/application/usecases/supplier/import_suppliers_usecase.go:59-157 | the worker loop leaves the repository calls and the channel exactly as RunWorker describes |
| ImportSuppliers.DataRows | internal/application/usecases/supplier/import_suppliers_usecase.go:164-176 | the worker handles the rows after the header, in order: all of them, or the first n when it sees the context done after n |
| ImportSuppliers.Produce | internal/application/usecases/supplier/import_suppliers_usecase.go:164-176 | the producer loop, cut off where the worker sees the context done, yields exactly DataRows |
| ImportSuppliers.Execute | internal/application/usecases/supplier/import_suppliers_usecase.go:35-188 | the method returns Import's error and makes exactly Import's repository calls |
| ImportSuppliers.ReportTexts | internal/application/usecases/supplier/import_suppliers_usecase.go:179-187 | a validation error reports "Erro de validação no campo: '<field>', rule <tag>" and any other "Erro de importação: <text>", always as a 400 bad request |
| ImportSuppliers.ImportRejectsBeforeWorking | internal/application/usecases/supplier/import_suppliers_usecase.go:36-48 | an unopenable file, an unparsable sheet or a sheet with at most one row each give their own bad request, and then nothing reaches the repository |
| ImportSuppliers.ImportStoresAccepted | internal/application/usecases/supplier/import_suppliers_usecase.go:46-187 | for a sheet with data, the repository gets exactly the accepted rows in batches of 1..1000; the import fails exactly when a row is rejected or a call fails, and reports the first such error |
| ImportSuppliers.CancelledImportSucceeds | internal/application/usecases/supplier/import_suppliers_usecase.go:170-187 | a context done before the worker handles any data row stores nothing and returns no error |

## Left out

- Zip reading and XML decoding are library calls. An archive is a list of
  entries carrying what the decoders return; decoder errors are `None`.
- Concurrency. The use case runs `runtime.NumCPU()` workers over a
  buffered channel. The model runs one worker over the rows in file
  order. With several workers, which worker gets a row, how the batches
  are cut, and which error reaches the one-slot channel first depend on
  scheduling. The model fixes one of those interleavings.
- Cancellation is modelled as `stopAfter`: the number of data rows the
  single worker handles before it sees the context done. The worker's
  `select` prefers a done context over `default`, so it then returns, and
  the rows after those are dropped, whether the producer had queued them
  or not. The deferred flush then calls `CreateMany` under the done
  context. What that call answers is part of the repository's scripted
  `Outcome`. Which rows are handled depends on scheduling: the producer's
  `select` picks at random between the done context and a send.
- `sync.Pool`, and the `Get`/deferred `Put` inside the worker loop, have
  no effect on the result and are not modelled.
- `batch[:0]` reuses the slice that was passed to `CreateMany`. The model
  assumes the repository does not keep the slice after the call returns.
- The repository is `SupplierSink`, with a scripted answer per call. The
  database is not modelled.
- Floating point. `ToFloat` is `ParseFloat` from the `Foreign` oracle,
  read as a real. `ExcelDateToTime` is computed on exact reals, so float
  rounding of the fraction is not modelled. Nor is overflow: Go's
  `int(excelSerial)` and the day arithmetic of `AddDate` overflow for
  serials beyond about 10^14 days, and the model computes them exactly. A real has no NaN or ±Inf.
  Go's `ParseFloat` accepts "NaN" and "Inf" without error, and `ToDate`
  turns them into a non-zero time that passes `required`. The model has
  no such values, so it rejects such a row where the code accepts it.
  An overflowing literal such as "1e400" is 0 here. Go keeps the ±Inf
  that `ParseFloat` returns with its range error.
- `time.Now()`, `uuid.New()`, `time.Parse`, JSON decoding, and the `fqdn`
  and `email` validators are parameters. Their own behaviour is not
  modelled.
- `reflect` and `sync.Map`. A struct type is a value listing its fields'
  names and `label` tags. The global label cache is a class holding a map.
  Concurrent `Load`/`Store` races are not modelled.
- `Suppliers.SupplierEntity` holds its business fields as one
  `SupplierData` value rather than 55 separate fields.
- `fmt.Sprintf` is modelled only for `%s`/`%v` with text arguments. A
  `%v` of a repository error is that error's text.
- ImportSuppliers.Report: reads only the first `FieldError` of a rejected
  row, as the source does (`ve[0]`); the other errors of that row are
  dropped.
- XlsxParser.ColToIndex: integers are unbounded, but Go's `int` in
  `colToIndex` wraps at 2^64. A reference of 14 or more letters can wrap
  back into [0, 55): "GKGWBYLWRXTLPQ" is column number 2^64 + 1, so Go
  returns 0. Go then writes such a cell to that column (here A). The model
  gives it no column and drops it (`CellColumn`).
- Utils.Safe: requires a non-negative index. Go would panic on a negative
  one, and every call in the import passes a constant from 0 to 54.
- The other entry points of the binder (`ParamValidate`, `QueryValidate`,
  `BodyValidate`, `FormValidate`) only pass a bind function and a default
  message to `BindAndValidate`, which is modelled with the outcome of
  binding as a parameter.

## Findings

| source | as written | input that shows it | evidently intended | confidence | as-written member | corrected member |
|---|---|---|---|---|---|---|
| internal/application/providers/xlsx_parser_provider.go:140-141 | the guard `n < len(sharedStrings)` checks only the upper bound, so a negative index reaches `sharedStrings[n]` and panics | a cell `<c r="A2" t="s"><v>-1</v></c>` with any shared string table | also require `n >= 0`, so the column keeps its text like any other unresolvable index | not executed | XlsxParser.SharedIndexNegative | XlsxParser.ResolveShared |
