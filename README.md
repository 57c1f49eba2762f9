# Viewing-activity refiner, modelled in Dafny

The refiner turns a streaming-service data export into an encrypted,
content-addressed SQLite (libsql) database. It finds the `.zip` export in
its input directory, extracts it, requires `ViewingActivity.csv` and
`account.json`, reads the owner address from the `user` field of
`account.json`, maps every CSV row to a `UserActivity` record and stores
the records, builds an `OffChainSchema` descriptor, writes it to
`schema.json`, uploads it to IPFS before the file is closed, then encrypts the database, uploads it and sets the output's
`refinement_url` to the gateway URL, a slash and the returned hash.

The model has four modules:

- `Refined` (`refined.dfy`): the `UserActivity` record and the column table
  of `user_activities`. The record has no `id`; the store's autoincrement
  assigns it.
- `ActivityTransformer` (`activity_transformer.dfy`): the row-to-record
  mapping. A CSV row is a `map<string, string>` from header label to cell.
  The reader's output is a `CsvRead`: the rows it decoded and the exception
  that stopped it early, if any. `MapRow` is one loop iteration.
  `TransformRows` maps a list of rows; `TransformRead` is the whole call as
  a function. The method `Transform` is the loop itself, proved equal to it.
- `Refine` (`refine.dfy`): the run. It covers the zip scan (`FindZip`,
  proved against `FirstZipIndex`), the `Output` object, the `Refiner`
  class and its `Transform` method. Collaborators are fields of an
  `Environment` value: the directory listing, zip extraction, file
  existence after extraction, reading `user` from `account.json`, reading
  CSV rows, the bulk insert, the store's schema text, writing and closing
  `schema.json`, encryption and the two IPFS uploads. Each returns a value
  or the exception it raises. `Run` is the method as a function. Its ghost
  trace lists the collaborator steps a run reaches. `StepOutcome` says
  independently whether each step fails, and the lemmas relate the two.
- `Wrappers` and `Exceptions`: `Option`, `Result` and the exceptions a run
  ends with. The core itself raises `FileNotFoundError`, `ValueError` and
  `KeyError`. A collaborator may raise any `Exception`: one of those three,
  or a `CollaboratorError` standing for an exception of another type
  (`OSError`, `zipfile.BadZipFile`, a JSON decoding error, an HTTP error).

A missing required column raises a plain `KeyError` naming the label.
Missing files raise `FileNotFoundError` and a missing owner raises
`ValueError`, each with the code's message. When several zips are listed,
the first in listing order wins.

## Model

| member | source | states |
|---|---|---|
| `Refined.Columns` | refiner/models/refined.py:7-20 | The column table of the `UserActivity` model, in declaration order; what it states is proved by the three lemmas below. |
| `Refined.ColumnValues` | refiner/models/refined.py:10-20 | The `UserActivity` record read column by column, `None` for NULL; `ColumnsAreIdAndRecordFields` proves its keys are exactly the data columns. |
| `Refined.ColumnsAreIdAndRecordFields` | refiner/models/refined.py:7-20 | The table is named `user_activities`. It is `id` (integer, primary key, autoincrement, never null) followed by the eleven string columns. These are exactly the keys a record fills, and `id` is not one of them. |
| `Refined.ColumnNamesDistinct` | refiner/models/refined.py:9-20 | No two columns share a name. |
| `Refined.NullableExactlyWhenOptional` | refiner/models/refined.py:10-20 | A record leaves a data column NULL only if the column is nullable. Every nullable column is NULL in some record. So `address`, `profile_name` and `start_time` are the non-nullable ones. |
| `ActivityTransformer.Get` | refiner/transformer/activity_transformer.py:21-28 | `row.get(label)`: `None` for an absent label, else the cell. `MapRowCopiesCells` and `ColumnNullIffLabelAbsent` state what this gives each column. |
| `ActivityTransformer.MapRow` | refiner/transformer/activity_transformer.py:17-29 | Building a record succeeds exactly when the row has both `Profile Name` and `Start Time`. |
| `ActivityTransformer.MapRowCopiesCells` | refiner/transformer/activity_transformer.py:17-29 | Read back by column, the record holds the run's address and, for each other column, exactly `row.get` of its label: cells are copied verbatim. |
| `ActivityTransformer.LabelledColumnsAreRecordColumns` | refiner/transformer/activity_transformer.py:18-28 | The ten labelled columns plus `address` are exactly the data columns a record fills. |
| `ActivityTransformer.ColumnNullIffLabelAbsent` | refiner/transformer/activity_transformer.py:21-28 | A column is NULL exactly when its label is absent from the row. An empty cell gives `""`, not NULL. |
| `ActivityTransformer.MapRowIgnoresOtherLabels` | refiner/transformer/activity_transformer.py:17-29 | Two rows that agree on the ten mapped labels give the same record, or the same error. Other labels neither matter nor fail. |
| `ActivityTransformer.TransformRows` | refiner/transformer/activity_transformer.py:13-31 | On success there is one record per row, in row order: record `i` is the mapping of row `i`. |
| `ActivityTransformer.TransformSucceedsIff` | refiner/transformer/activity_transformer.py:16-31 | The call succeeds exactly when every row has both required labels. |
| `ActivityTransformer.TransformFailsAtFirstBadRow` | refiner/transformer/activity_transformer.py:16-20 | If row `k` is the first row without a required label, the whole call raises that row's `KeyError` (`Profile Name` before `Start Time`) and returns no records. |
| `ActivityTransformer.TransformKeepsAddress` | refiner/transformer/activity_transformer.py:12-18 | Every record of a successful call has the address that was passed in. |
| `ActivityTransformer.TransformRead` | refiner/transformer/activity_transformer.py:14-31 | A successful call had a reader that reached the end, and its records are `TransformRows` of all rows. |
| `ActivityTransformer.TransformReadSucceedsIff` | refiner/transformer/activity_transformer.py:14-31 | The call succeeds exactly when the reader reached the end of the file and every row has both required labels. |
| `ActivityTransformer.KeyErrorPrecedesReadError` | refiner/transformer/activity_transformer.py:15-20 | Because the reader is lazy, a row without a required label that comes before a read or decode failure raises that row's `KeyError`, not the reader's exception. |
| `ActivityTransformer.ReadErrorAfterMappedRows` | refiner/transformer/activity_transformer.py:14-16 | When all rows read before the reader failed map, the call raises the reader's exception and returns no records. |
| `ActivityTransformer.Transform` | refiner/transformer/activity_transformer.py:10-31 | The loop over the reader's rows, appending one record per row, aborting on the first `KeyError` and then on the reader's exception, returns exactly `TransformRead`. |
| `Refine.Join` | refiner/refine.py:39-40 | Two-argument POSIX `os.path.join` (`posixpath.join`), used for every path the run builds: the database (line 15), the zip (line 26), the CSV and account files, and `schema.json` (line 73). `JoinEndsWithName` states its result. |
| `Refine.JoinEndsWithName` | refiner/refine.py:26 | POSIX `os.path.join(dir, name)` ends with `name`. Unless `name` is absolute, it also starts with `dir`. |
| `Refine.Lower` | refiner/refine.py:25 | `str.lower()` on ASCII letters. Its effect on the zip test is stated by `IsZipNameCaseInsensitive`. |
| `Refine.IsZipName` | refiner/refine.py:25 | `fname.lower().endswith('.zip')`. `IsZipNameCaseInsensitive` states it character by character. |
| `Refine.IsZipNameCaseInsensitive` | refiner/refine.py:25 | A name passes the zip test exactly when it ends in `.` followed by `z`, `i`, `p`, each in either case. |
| `Refine.FirstZipIndex` | refiner/refine.py:24-27 | Returns the index of the first listing entry that passes the zip test, and `None` exactly when no entry does. |
| `Refine.FindZip` | refiner/refine.py:23-27 | The scan that stops at the first match returns that entry joined to the input directory, or `None`. |
| `Refine.FoundZipPathIsNonEmpty` | refiner/refine.py:26-29 | A found zip path is never `""`, so `if not zip_path` fails exactly when no zip was found. |
| `Refine.Truthy` | refiner/refine.py:54 | `if not address` for a string or null `user`: absent, null and `""` are falsy. `FalsyUserRaisesValueError` states the consequence. |
| `Refine.SchemaOf` | refiner/refine.py:63-69 | The schema descriptor: the four configured values and the store's schema. `SuccessfulRunPublishesDatabase` states it is the output's, written and uploaded schema. |
| `Refine.Run` | refiner/refine.py:17-85 | `Refiner.transform` as a function of the settings and collaborators. `StagesRunInOrder`, `RunStopsAtFirstFailure` and `SuccessfulRunPublishesDatabase` state its behaviour. `Refiner.Transform` is proved equal to it. |
| `Refine.LocateFiles` | refiner/refine.py:38-48 | The two existence checks, CSV first. Stated by `CsvCheckedBeforeAccount`. |
| `Refine.ReadOwner` | refiner/refine.py:50-55 | Read `user` from `account.json`; falsy raises `ValueError`. Stated by `FalsyUserRaisesValueError` and `TransformerGetsCsvPathAndAddress`. |
| `Refine.ProcessActivity` | refiner/refine.py:57-60 | Transform the CSV for the address and bulk-insert the records. Stated by `TransformerGetsCsvPathAndAddress` and `StoreGetsTransformedRecords`. |
| `Refine.PublishSchema` | refiner/refine.py:62-77 | Write `schema.json`, upload the schema while the file is open, then close it. Stated by `StagesRunInOrder`, `RunStopsAtFirstFailure` and `SuccessfulRunPublishesDatabase`. |
| `Refine.PublishDatabase` | refiner/refine.py:79-85 | Encrypt the database, upload it and compose the URL. Stated by `SuccessfulRunPublishesDatabase`. |
| `Refine.NoZipRaisesBeforeExtraction` | refiner/refine.py:28-34 | With no zip in the listing, the run raises `FileNotFoundError("No zip file found in input directory")` and no step runs. |
| `Refine.ExtractsFirstZipOnly` | refiner/refine.py:24-34 | The first step extracts the first matching entry into the input directory. No other extraction happens. |
| `Refine.CsvCheckedBeforeAccount` | refiner/refine.py:43-48 | A missing CSV raises the CSV's `FileNotFoundError` whether or not `account.json` exists. A present CSV with a missing `account.json` raises the account's. |
| `Refine.FalsyUserRaisesValueError` | refiner/refine.py:50-59 | A `user` that is absent, null or `""` raises `ValueError`. No transformation or store step is reached. |
| `Refine.TransformerGetsCsvPathAndAddress` | refiner/refine.py:39-59 | The transformer step is the fifth step. It gets `ViewingActivity.csv` in the input directory and the non-empty `user` read from `account.json`. |
| `Refine.StoreGetsTransformedRecords` | refiner/refine.py:58-59 | The bulk insert is the sixth step and receives exactly the records of a successful `TransformRead` of that CSV for that address. |
| `Refine.StagesRunInOrder` | refiner/refine.py:17-85 | The steps of any run are a prefix of the fixed order: extract, check CSV, check account, read account, transform, store, write schema, upload schema, close `schema.json`, encrypt, upload database. |
| `Refine.RunStopsAtFirstFailure` | refiner/refine.py:28-82 | A failed run either found no zip and ran nothing, or ends with a step that raised exactly the run's exception after all earlier steps succeeded. No later stage runs. |
| `Refine.SuccessfulRunPublishesDatabase` | refiner/refine.py:62-85 | A successful run went through all eleven steps without a failure. The output's schema is the four configured values plus the store's schema. That schema was written, then uploaded, then `schema.json` was closed. The database path was encrypted, and the URL is the gateway, `/` and the hash of the encrypted file. |
| `Refine.Output.constructor` | refiner/refine.py:20 | A new output has neither schema nor URL. |
| `Refine.Refiner.constructor` | refiner/refine.py:14-15 | The database path is `db.libsql` joined to the output directory. |
| `Refine.Refiner.Transform` | refiner/refine.py:17-85 | The method reaches exactly the steps of `Run`. It raises `Run`'s exception, or returns a fresh output whose schema and URL are `Run`'s. |

## Left out

- Filesystem I/O is not modelled. Listing, extraction, existence checks and file reads and writes are `Environment` fields. `fileExists` describes the input directory after extraction.
- CSV tokenising and UTF-8 decoding are left to `csv.DictReader`. Its output is a `CsvRead`: the rows it decoded and the exception that stopped it, if any. Rows are given as maps, so short rows padded with `None` and extra cells under a `None` key are not modelled.
- JSON parsing is not modelled. `readUser` yields `account.json`'s `user` as an `Option<string>`. A truthy non-string `user` (a number, a list, `true`) would reach the transformer in the source; the model cannot express it.
- `fname.lower()` is modelled as ASCII lower-casing. Only the last four characters matter for the `.zip` test. Unicode case mappings that change a string's length are not modelled.
- `refiner/transformer/base_transformer.py` is not part of this model. `DataTransformer.process` is modelled as: run `Transform` over what the CSV reader yields, then bulk-insert the records through `store`. Opening the database is folded into `store`. `get_schema()` is the opaque string `storeSchema`.
- The store's autoincrement is not modelled. The records it receives carry no `id`.
- `encrypt_file`, `upload_json_to_ipfs` and `upload_file_to_ipfs` are foreign calls. They are opaque `Environment` functions that return a string or raise.
- Opening `schema.json` and `json.dump` are one `writeSchema` step, before the upload. Closing the file is the `closeSchema` step after it. When the upload raises, the `with` block still closes the file; that close is not modelled, so a close failure that would replace the upload's exception is not captured. The schema hash returned by IPFS is only logged, so it is discarded.
- `refiner/models/offchain_schema.py` and `refiner/models/output.py` are not part of this model. `OffChainSchema` is a record of the five fields the code passes. `Output` holds the two fields the code assigns, both unset at first.
- The `settings` module is not modelled; a `Settings` value is passed to the `Refiner` constructor. Logging is omitted.
- `Refine.Refiner.Transform`: the source sets `output.schema` before the uploads. That order cannot be observed, since an exception discards the output. The contract therefore states only that the returned output holds the schema that was written and uploaded.
