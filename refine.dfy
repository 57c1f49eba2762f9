/**
  * The refinement run: find the export zip in the input directory, extract
  * it, check for `ViewingActivity.csv` and `account.json`, read the owner
  * address, transform and store the activity rows, describe the schema,
  * upload it, then encrypt and upload the database and compose its URL.
  *
  * The filesystem, JSON parsing, the store, encryption and IPFS are
  * collaborators: an `Environment` gives what each returns or raises. The
  * ghost trace of a run lists the collaborator steps it reached, in order.
  */
module Refine {
  import opened Wrappers
  import opened Exceptions
  import opened Refined
  import ActivityTransformer

  const CsvFileName: string := "ViewingActivity.csv"
  const AccountFileName: string := "account.json"
  const DbFileName: string := "db.libsql"
  const SchemaFileName: string := "schema.json"
  const ZipSuffix: string := ".zip"

  const NoZipMessage: string := "No zip file found in input directory"
  const CsvMissingMessage: string := "ViewingActivity.csv not found in extracted zip"
  const AccountMissingMessage: string := "account.json not found in extracted zip"
  const NoUserMessage: string := "No 'user' field found in account.json"

  /** The configuration the run reads, fixed before it starts. */
  datatype Settings = Settings(
    inputDir: string,
    outputDir: string,
    schemaName: string,
    schemaVersion: string,
    schemaDescription: string,
    schemaDialect: string,
    encryptionKey: string,
    ipfsGatewayUrl: string)

  /** The schema descriptor: four configured values and the store's own schema text. */
  datatype OffChainSchema = OffChainSchema(
    name: string, version: string, description: string, dialect: string, schema: string)

  /** What `Output` holds, as a value. */
  datatype OutputView = OutputView(schema: Option<OffChainSchema>, refinementUrl: Option<string>)

  /**
    * What the collaborators do in one run. `fileExists` describes the input
    * directory after extraction; `readCsv` is what the CSV reader yields for
    * a path; `writeSchema` opens `schema.json` and dumps the schema into it,
    * and `closeSchema` closes (and so flushes) it when the `with` block
    * ends, after the upload; each failing call yields the exception it
    * raises.
    */
  datatype Environment = Environment(
    listing: seq<string>,
    extract: (string, string) -> Option<Exception>,
    fileExists: string -> bool,
    readUser: string -> Result<Option<string>, Exception>,
    readCsv: string -> ActivityTransformer.CsvRead,
    store: seq<UserActivity> -> Option<Exception>,
    storeSchema: string,
    writeSchema: (string, OffChainSchema) -> Option<Exception>,
    uploadJson: OffChainSchema -> Result<string, Exception>,
    closeSchema: string -> Option<Exception>,
    encrypt: (string, string) -> Result<string, Exception>,
    uploadFile: string -> Result<string, Exception>)

  /** One collaborator step of a run. */
  datatype Event =
    | ZipExtracted(zipPath: string, destination: string)
    | CsvLocated(csvPath: string)
    | AccountLocated(accountPath: string)
    | AccountRead(accountPath: string)
    | CsvTransformed(csvPath: string, address: string)
    | RecordsStored(records: seq<UserActivity>)
    | SchemaWritten(schemaPath: string, schema: OffChainSchema)
    | SchemaUploaded(schema: OffChainSchema)
    | SchemaClosed(schemaPath: string)
    | DatabaseEncrypted(key: string, dbPath: string)
    | FileUploaded(encryptedPath: string)

  /** The position of each step in the run's fixed stage order. */
  function StageIndex(e: Event): nat {
    match e
    case ZipExtracted(_, _) => 0
    case CsvLocated(_) => 1
    case AccountLocated(_) => 2
    case AccountRead(_) => 3
    case CsvTransformed(_, _) => 4
    case RecordsStored(_) => 5
    case SchemaWritten(_, _) => 6
    case SchemaUploaded(_) => 7
    case SchemaClosed(_) => 8
    case DatabaseEncrypted(_, _) => 9
    case FileUploaded(_) => 10
  }

  const StageCount: nat := 11

  /** The result of a run together with the steps it reached. */
  datatype RunOutcome = RunOutcome(result: Result<OutputView, Exception>, trace: seq<Event>)

  /**
    * `os.path.join(dir, name)` on POSIX, that is two-argument
    * `posixpath.join`: an absolute `name` replaces `dir`; a `/` is added
    * only when `dir` is non-empty and does not already end in one.
    */
  function Join(dir: string, name: string): string {
    if |name| > 0 && name[0] == '/' then name
    else if dir == [] || dir[|dir| - 1] == '/' then dir + name
    else dir + "/" + name
  }

  /** A joined path ends with the file name and starts with the directory unless the name is absolute. */
  lemma JoinEndsWithName(dir: string, name: string)
    ensures EndsWith(Join(dir, name), name)
    ensures (|name| == 0 || name[0] != '/') ==> |Join(dir, name)| >= |dir| && Join(dir, name)[..|dir|] == dir
  {
    var p := Join(dir, name);
    if !(|name| > 0 && name[0] == '/') && !(dir == [] || dir[|dir| - 1] == '/') {
      assert p == (dir + "/") + name;
    }
  }

  /** ASCII lower-casing of one character. */
  function LowerChar(c: char): char {
    if 'A' <= c <= 'Z' then (c as int + 32) as char else c
  }

  function Lower(s: string): string {
    seq(|s|, i requires 0 <= i < |s| => LowerChar(s[i]))
  }

  predicate EndsWith(s: string, suffix: string) {
    |s| >= |suffix| && s[|s| - |suffix|..] == suffix
  }

  /** `fname.lower().endswith('.zip')`. */
  predicate IsZipName(name: string) {
    EndsWith(Lower(name), ZipSuffix)
  }

  /** The zip test, character by character: the name ends in a dot and z, i, p in either case. */
  lemma IsZipNameCaseInsensitive(name: string)
    ensures IsZipName(name) <==>
      && |name| >= 4
      && name[|name| - 4] == '.'
      && (name[|name| - 3] == 'z' || name[|name| - 3] == 'Z')
      && (name[|name| - 2] == 'i' || name[|name| - 2] == 'I')
      && (name[|name| - 1] == 'p' || name[|name| - 1] == 'P')
  {
    if |name| >= 4 {
      var tail := Lower(name)[|name| - 4..];
      assert tail == [LowerChar(name[|name| - 4]), LowerChar(name[|name| - 3]),
                      LowerChar(name[|name| - 2]), LowerChar(name[|name| - 1])];
    }
  }

  /** The index of the first listing entry that names a zip, if any. */
  function FirstZipIndex(listing: seq<string>): (k: Option<nat>)
    ensures k.None? <==> forall j | 0 <= j < |listing| :: !IsZipName(listing[j])
    ensures k.Some? ==>
      && k.value < |listing| && IsZipName(listing[k.value])
      && forall j | 0 <= j < k.value :: !IsZipName(listing[j])
  {
    if listing == [] then None
    else if IsZipName(listing[0]) then Some(0)
    else match FirstZipIndex(listing[1..])
      case None => None
      case Some(k) => Some(k + 1)
  }

  /** The path the run extracts: the input directory joined with the first zip name. */
  function ZipPathOf(inputDir: string, listing: seq<string>): Option<string> {
    match FirstZipIndex(listing)
    case None => None
    case Some(k) => Some(Join(inputDir, listing[k]))
  }

  /** A found zip path is never the empty string, so `if not zip_path` fails exactly when none was found. */
  lemma FoundZipPathIsNonEmpty(inputDir: string, listing: seq<string>)
    requires ZipPathOf(inputDir, listing).Some?
    ensures ZipPathOf(inputDir, listing).value != ""
  {
    var name := listing[FirstZipIndex(listing).value];
    assert |Lower(name)| == |name| >= |ZipSuffix|;
    JoinEndsWithName(inputDir, name);
  }

  /** The scan of the input directory: stop at the first entry whose lower-cased name ends in `.zip`. */
  method FindZip(inputDir: string, listing: seq<string>) returns (zipPath: Option<string>)
    ensures zipPath == ZipPathOf(inputDir, listing)
  {
    zipPath := None;
    for i := 0 to |listing|
      invariant forall j | 0 <= j < i :: !IsZipName(listing[j])
      invariant zipPath == None
    {
      if IsZipName(listing[i]) {
        zipPath := Some(Join(inputDir, listing[i]));
        return;
      }
    }
  }

  /** `if not address`: the `user` value is missing, null or the empty string. */
  predicate Truthy(user: Option<string>) {
    user.Some? && user.value != ""
  }

  function CsvPath(settings: Settings): string {
    Join(settings.inputDir, CsvFileName)
  }

  function AccountPath(settings: Settings): string {
    Join(settings.inputDir, AccountFileName)
  }

  function SchemaPath(settings: Settings): string {
    Join(settings.outputDir, SchemaFileName)
  }

  function Abort(e: Exception, trace: seq<Event>): RunOutcome {
    RunOutcome(Failure(e), trace)
  }

  /** `Refiner.transform` as a function of the settings, the database path and the collaborators. */
  function Run(settings: Settings, dbPath: string, env: Environment): RunOutcome {
    match ZipPathOf(settings.inputDir, env.listing)
    case None => Abort(FileNotFoundError(NoZipMessage), [])
    case Some(zipPath) =>
      var trace := [ZipExtracted(zipPath, settings.inputDir)];
      var extracted := env.extract(zipPath, settings.inputDir);
      if extracted.Some? then Abort(extracted.value, trace)
      else LocateFiles(settings, dbPath, env, trace)
  }

  /** The two existence checks, CSV first. */
  function LocateFiles(settings: Settings, dbPath: string, env: Environment, trace: seq<Event>): RunOutcome {
    var t1 := trace + [CsvLocated(CsvPath(settings))];
    if !env.fileExists(CsvPath(settings)) then Abort(FileNotFoundError(CsvMissingMessage), t1) else
    var t2 := t1 + [AccountLocated(AccountPath(settings))];
    if !env.fileExists(AccountPath(settings)) then Abort(FileNotFoundError(AccountMissingMessage), t2)
    else ReadOwner(settings, dbPath, env, t2)
  }

  /** Read `user` from `account.json`; a falsy value raises `ValueError`. */
  function ReadOwner(settings: Settings, dbPath: string, env: Environment, trace: seq<Event>): RunOutcome {
    var t := trace + [AccountRead(AccountPath(settings))];
    match env.readUser(AccountPath(settings))
    case Failure(e) => Abort(e, t)
    case Success(user) =>
      if !Truthy(user) then Abort(ValueError(NoUserMessage), t)
      else ProcessActivity(settings, dbPath, env, t, user.value)
  }

  /** `transformer.process`: map the rows the CSV reader yields to records, bulk-insert them. */
  function ProcessActivity(settings: Settings, dbPath: string, env: Environment, trace: seq<Event>, address: string): RunOutcome {
    var t := trace + [CsvTransformed(CsvPath(settings), address)];
    match ActivityTransformer.TransformRead(env.readCsv(CsvPath(settings)), address)
    case Failure(e) => Abort(e, t)
    case Success(records) =>
      var t' := t + [RecordsStored(records)];
      var stored := env.store(records);
      if stored.Some? then Abort(stored.value, t')
      else PublishSchema(settings, dbPath, env, t')
  }

  /** The schema descriptor of the run. */
  function SchemaOf(settings: Settings, env: Environment): OffChainSchema {
    OffChainSchema(settings.schemaName, settings.schemaVersion, settings.schemaDescription,
                   settings.schemaDialect, env.storeSchema)
  }

  /** Write `schema.json`, upload the schema while the file is still open, then close the file. */
  function PublishSchema(settings: Settings, dbPath: string, env: Environment, trace: seq<Event>): RunOutcome {
    var schema := SchemaOf(settings, env);
    var t1 := trace + [SchemaWritten(SchemaPath(settings), schema)];
    var written := env.writeSchema(SchemaPath(settings), schema);
    if written.Some? then Abort(written.value, t1) else
    var t2 := t1 + [SchemaUploaded(schema)];
    match env.uploadJson(schema)
    case Failure(e) => Abort(e, t2)
    case Success(_) =>
      var t3 := t2 + [SchemaClosed(SchemaPath(settings))];
      var closed := env.closeSchema(SchemaPath(settings));
      if closed.Some? then Abort(closed.value, t3)
      else PublishDatabase(settings, dbPath, env, t3)
  }

  /** Encrypt the database, upload it and compose its URL. */
  function PublishDatabase(settings: Settings, dbPath: string, env: Environment, trace: seq<Event>): RunOutcome {
    var t1 := trace + [DatabaseEncrypted(settings.encryptionKey, dbPath)];
    match env.encrypt(settings.encryptionKey, dbPath)
    case Failure(e) => Abort(e, t1)
    case Success(encryptedPath) =>
      var t2 := t1 + [FileUploaded(encryptedPath)];
      match env.uploadFile(encryptedPath)
      case Failure(e) => Abort(e, t2)
      case Success(hash) =>
        RunOutcome(Success(OutputView(Some(SchemaOf(settings, env)), Some(settings.ipfsGatewayUrl + "/" + hash))), t2)
  }

  /** The exception one step raises in `env`, or `None` when it succeeds. */
  function StepOutcome(env: Environment, e: Event): Option<Exception> {
    match e
    case ZipExtracted(zipPath, destination) => env.extract(zipPath, destination)
    case CsvLocated(path) => if env.fileExists(path) then None else Some(FileNotFoundError(CsvMissingMessage))
    case AccountLocated(path) => if env.fileExists(path) then None else Some(FileNotFoundError(AccountMissingMessage))
    case AccountRead(path) =>
      (match env.readUser(path)
       case Failure(err) => Some(err)
       case Success(user) => if Truthy(user) then None else Some(ValueError(NoUserMessage)))
    case CsvTransformed(path, address) =>
      (match ActivityTransformer.TransformRead(env.readCsv(path), address)
       case Failure(err) => Some(err)
       case Success(_) => None)
    case RecordsStored(records) => env.store(records)
    case SchemaWritten(path, schema) => env.writeSchema(path, schema)
    case SchemaUploaded(schema) => (match env.uploadJson(schema) case Failure(err) => Some(err) case Success(_) => None)
    case SchemaClosed(path) => env.closeSchema(path)
    case DatabaseEncrypted(key, path) => (match env.encrypt(key, path) case Failure(err) => Some(err) case Success(_) => None)
    case FileUploaded(path) => (match env.uploadFile(path) case Failure(err) => Some(err) case Success(_) => None)
  }

  /** Every step before the last one of `trace` succeeded in `env`. */
  predicate EarlierStepsSucceed(env: Environment, trace: seq<Event>) {
    forall i | 0 <= i < |trace| - 1 :: StepOutcome(env, trace[i]).None?
  }

  predicate AllStepsSucceed(env: Environment, trace: seq<Event>) {
    forall i | 0 <= i < |trace| :: StepOutcome(env, trace[i]).None?
  }

  /** The steps of `trace` are the first stages of the fixed order. */
  predicate InStageOrder(trace: seq<Event>) {
    |trace| <= StageCount && forall i | 0 <= i < |trace| :: StageIndex(trace[i]) == i
  }

  /** A failed outcome's last step raised its exception after all earlier ones succeeded; a success had no failing step. */
  predicate EndsAtFirstFailure(env: Environment, o: RunOutcome) {
    match o.result
    case Failure(e) =>
      |o.trace| > 0 && StepOutcome(env, o.trace[|o.trace| - 1]) == Some(e) && EarlierStepsSucceed(env, o.trace)
    case Success(_) => AllStepsSucceed(env, o.trace)
  }

  /** What each stage function keeps: it extends the trace it is given, in stage order, stopping at the first failure. */
  predicate StageProgress(env: Environment, trace: seq<Event>, o: RunOutcome) {
    && InStageOrder(o.trace) && EndsAtFirstFailure(env, o)
    && |trace| <= |o.trace| && o.trace[..|trace|] == trace
  }

  lemma ExtendTrace(env: Environment, trace: seq<Event>, e: Event)
    requires InStageOrder(trace) && AllStepsSucceed(env, trace) && StageIndex(e) == |trace|
    ensures InStageOrder(trace + [e]) && EarlierStepsSucceed(env, trace + [e])
    ensures StepOutcome(env, e).None? ==> AllStepsSucceed(env, trace + [e])
    ensures (trace + [e])[..|trace|] == trace
  {
  }

  lemma PrefixOfPrefix(trace: seq<Event>, longer: seq<Event>, o: seq<Event>)
    requires |trace| <= |longer| <= |o| && longer[..|trace|] == trace && o[..|longer|] == longer
    ensures o[..|trace|] == trace
  {
    assert o[..|trace|] == o[..|longer|][..|trace|];
  }

  lemma PublishDatabaseProgress(settings: Settings, dbPath: string, env: Environment, trace: seq<Event>)
    requires InStageOrder(trace) && |trace| == 9 && AllStepsSucceed(env, trace)
    ensures StageProgress(env, trace, PublishDatabase(settings, dbPath, env, trace))
  {
    var t1 := trace + [DatabaseEncrypted(settings.encryptionKey, dbPath)];
    ExtendTrace(env, trace, DatabaseEncrypted(settings.encryptionKey, dbPath));
    match env.encrypt(settings.encryptionKey, dbPath)
    case Failure(_) =>
    case Success(encryptedPath) =>
      ExtendTrace(env, t1, FileUploaded(encryptedPath));
      PrefixOfPrefix(trace, t1, t1 + [FileUploaded(encryptedPath)]);
  }

  lemma PublishSchemaProgress(settings: Settings, dbPath: string, env: Environment, trace: seq<Event>)
    requires InStageOrder(trace) && |trace| == 6 && AllStepsSucceed(env, trace)
    ensures StageProgress(env, trace, PublishSchema(settings, dbPath, env, trace))
  {
    var schema := SchemaOf(settings, env);
    var t1 := trace + [SchemaWritten(SchemaPath(settings), schema)];
    ExtendTrace(env, trace, SchemaWritten(SchemaPath(settings), schema));
    if env.writeSchema(SchemaPath(settings), schema).None? {
      var t2 := t1 + [SchemaUploaded(schema)];
      ExtendTrace(env, t1, SchemaUploaded(schema));
      PrefixOfPrefix(trace, t1, t2);
      if env.uploadJson(schema).Success? {
        var t3 := t2 + [SchemaClosed(SchemaPath(settings))];
        ExtendTrace(env, t2, SchemaClosed(SchemaPath(settings)));
        PrefixOfPrefix(trace, t2, t3);
        if env.closeSchema(SchemaPath(settings)).None? {
          PublishDatabaseProgress(settings, dbPath, env, t3);
          PrefixOfPrefix(trace, t3, PublishDatabase(settings, dbPath, env, t3).trace);
        }
      }
    }
  }

  lemma ProcessActivityProgress(settings: Settings, dbPath: string, env: Environment, trace: seq<Event>, address: string)
    requires InStageOrder(trace) && |trace| == 4 && AllStepsSucceed(env, trace)
    requires env.readUser(AccountPath(settings)) == Success(Some(address)) && address != ""
    ensures StageProgress(env, trace, ProcessActivity(settings, dbPath, env, trace, address))
    ensures var o := ProcessActivity(settings, dbPath, env, trace, address);
      && |o.trace| > 4 && o.trace[4] == CsvTransformed(CsvPath(settings), address)
      && (|o.trace| > 5 ==>
            && o.trace[5].RecordsStored?
            && ActivityTransformer.TransformRead(env.readCsv(CsvPath(settings)), address)
                 == Success(o.trace[5].records))
  {
    var o := ProcessActivity(settings, dbPath, env, trace, address);
    var t := trace + [CsvTransformed(CsvPath(settings), address)];
    ExtendTrace(env, trace, CsvTransformed(CsvPath(settings), address));
    var read := ActivityTransformer.TransformRead(env.readCsv(CsvPath(settings)), address);
    if read.Success? {
      var records := read.value;
      var t' := t + [RecordsStored(records)];
      ExtendTrace(env, t, RecordsStored(records));
      PrefixOfPrefix(trace, t, t');
      if env.store(records).None? {
        PublishSchemaProgress(settings, dbPath, env, t');
        PrefixOfPrefix(trace, t', PublishSchema(settings, dbPath, env, t').trace);
        assert o.trace[..6] == t';
        assert o.trace[4] == t'[4] && o.trace[5] == t'[5];
      }
    }
  }

  lemma ReadOwnerProgress(settings: Settings, dbPath: string, env: Environment, trace: seq<Event>)
    requires InStageOrder(trace) && |trace| == 3 && AllStepsSucceed(env, trace)
    ensures StageProgress(env, trace, ReadOwner(settings, dbPath, env, trace))
  {
    var t := trace + [AccountRead(AccountPath(settings))];
    ExtendTrace(env, trace, AccountRead(AccountPath(settings)));
    match env.readUser(AccountPath(settings))
    case Failure(_) =>
    case Success(user) =>
      if Truthy(user) {
        ProcessActivityProgress(settings, dbPath, env, t, user.value);
        PrefixOfPrefix(trace, t, ProcessActivity(settings, dbPath, env, t, user.value).trace);
      }
  }

  lemma LocateFilesProgress(settings: Settings, dbPath: string, env: Environment, trace: seq<Event>)
    requires InStageOrder(trace) && |trace| == 1 && AllStepsSucceed(env, trace)
    ensures StageProgress(env, trace, LocateFiles(settings, dbPath, env, trace))
  {
    var t1 := trace + [CsvLocated(CsvPath(settings))];
    ExtendTrace(env, trace, CsvLocated(CsvPath(settings)));
    if env.fileExists(CsvPath(settings)) {
      var t2 := t1 + [AccountLocated(AccountPath(settings))];
      ExtendTrace(env, t1, AccountLocated(AccountPath(settings)));
      PrefixOfPrefix(trace, t1, t2);
      if env.fileExists(AccountPath(settings)) {
        ReadOwnerProgress(settings, dbPath, env, t2);
        PrefixOfPrefix(trace, t2, ReadOwner(settings, dbPath, env, t2).trace);
      }
    }
  }

  /** The stage-by-stage facts for a whole run that found a zip. */
  lemma RunProgress(settings: Settings, dbPath: string, env: Environment)
    requires ZipPathOf(settings.inputDir, env.listing).Some?
    ensures StageProgress(env, [], Run(settings, dbPath, env))
  {
    var zipPath := ZipPathOf(settings.inputDir, env.listing).value;
    var trace := [ZipExtracted(zipPath, settings.inputDir)];
    ExtendTrace(env, [], ZipExtracted(zipPath, settings.inputDir));
    if env.extract(zipPath, settings.inputDir).None? {
      LocateFilesProgress(settings, dbPath, env, trace);
    }
  }

  /** With no zip in the listing the run raises `FileNotFoundError` before extracting anything. */
  lemma NoZipRaisesBeforeExtraction(settings: Settings, dbPath: string, env: Environment)
    requires forall j | 0 <= j < |env.listing| :: !IsZipName(env.listing[j])
    ensures Run(settings, dbPath, env) == RunOutcome(Failure(FileNotFoundError(NoZipMessage)), [])
  {
  }

  /**
    * When entry `k` is the first whose lower-cased name ends in `.zip`,
    * the run extracts exactly that entry, joined to the input directory,
    * into the input directory, and extracts nothing else.
    */
  lemma ExtractsFirstZipOnly(settings: Settings, dbPath: string, env: Environment, k: nat)
    requires k < |env.listing| && IsZipName(env.listing[k])
    requires forall j | 0 <= j < k :: !IsZipName(env.listing[j])
    ensures var trace := Run(settings, dbPath, env).trace;
      && |trace| >= 1
      && trace[0] == ZipExtracted(Join(settings.inputDir, env.listing[k]), settings.inputDir)
      && forall i | 1 <= i < |trace| :: !trace[i].ZipExtracted?
  {
    StagesRunInOrder(settings, dbPath, env);
  }

  /**
    * After a successful extraction, a missing CSV raises the CSV's
    * `FileNotFoundError` whether or not `account.json` exists; a present
    * CSV and a missing `account.json` raise the account's.
    */
  lemma CsvCheckedBeforeAccount(settings: Settings, dbPath: string, env: Environment)
    requires ZipPathOf(settings.inputDir, env.listing).Some?
    requires env.extract(ZipPathOf(settings.inputDir, env.listing).value, settings.inputDir).None?
    ensures !env.fileExists(CsvPath(settings)) ==>
      Run(settings, dbPath, env).result == Failure(FileNotFoundError(CsvMissingMessage))
    ensures env.fileExists(CsvPath(settings)) && !env.fileExists(AccountPath(settings)) ==>
      Run(settings, dbPath, env).result == Failure(FileNotFoundError(AccountMissingMessage))
  {
  }

  /**
    * Once both files are found, a missing, null or empty `user` raises
    * `ValueError` and the transformer is never invoked.
    */
  lemma FalsyUserRaisesValueError(settings: Settings, dbPath: string, env: Environment, user: Option<string>)
    requires ZipPathOf(settings.inputDir, env.listing).Some?
    requires env.extract(ZipPathOf(settings.inputDir, env.listing).value, settings.inputDir).None?
    requires env.fileExists(CsvPath(settings)) && env.fileExists(AccountPath(settings))
    requires env.readUser(AccountPath(settings)) == Success(user) && !Truthy(user)
    ensures Run(settings, dbPath, env).result == Failure(ValueError(NoUserMessage))
    ensures forall e | e in Run(settings, dbPath, env).trace :: !e.CsvTransformed? && !e.RecordsStored?
  {
  }

  /** The four steps before processing, as `Run` builds them. */
  function OwnerTrace(settings: Settings, env: Environment): seq<Event>
    requires ZipPathOf(settings.inputDir, env.listing).Some?
  {
    [ZipExtracted(ZipPathOf(settings.inputDir, env.listing).value, settings.inputDir)]
      + [CsvLocated(CsvPath(settings))] + [AccountLocated(AccountPath(settings))]
      + [AccountRead(AccountPath(settings))]
  }

  /** A run that got past the owner check is the processing stage started after `OwnerTrace`. */
  lemma ReachedProcessing(settings: Settings, dbPath: string, env: Environment)
    requires |Run(settings, dbPath, env).trace| > 4
    ensures ZipPathOf(settings.inputDir, env.listing).Some?
    ensures env.extract(ZipPathOf(settings.inputDir, env.listing).value, settings.inputDir).None?
    ensures env.fileExists(CsvPath(settings)) && env.fileExists(AccountPath(settings))
    ensures env.readUser(AccountPath(settings)).Success? && Truthy(env.readUser(AccountPath(settings)).value)
    ensures Run(settings, dbPath, env) ==
      ProcessActivity(settings, dbPath, env, OwnerTrace(settings, env), env.readUser(AccountPath(settings)).value.value)
  {
  }

  lemma OwnerTraceSucceeds(settings: Settings, dbPath: string, env: Environment)
    requires |Run(settings, dbPath, env).trace| > 4
    ensures ZipPathOf(settings.inputDir, env.listing).Some?
    ensures InStageOrder(OwnerTrace(settings, env)) && |OwnerTrace(settings, env)| == 4
    ensures AllStepsSucceed(env, OwnerTrace(settings, env))
  {
    ReachedProcessing(settings, dbPath, env);
    var zipPath := ZipPathOf(settings.inputDir, env.listing).value;
    var t0 := [ZipExtracted(zipPath, settings.inputDir)];
    ExtendTrace(env, [], ZipExtracted(zipPath, settings.inputDir));
    var t1 := t0 + [CsvLocated(CsvPath(settings))];
    ExtendTrace(env, t0, CsvLocated(CsvPath(settings)));
    var t2 := t1 + [AccountLocated(AccountPath(settings))];
    ExtendTrace(env, t1, AccountLocated(AccountPath(settings)));
    ExtendTrace(env, t2, AccountRead(AccountPath(settings)));
  }

  /**
    * The transformer is handed the fixed CSV path in the input directory
    * and the validated, non-empty `user` of `account.json`.
    */
  lemma TransformerGetsCsvPathAndAddress(settings: Settings, dbPath: string, env: Environment)
    ensures var trace := Run(settings, dbPath, env).trace;
      forall i | 0 <= i < |trace| && trace[i].CsvTransformed? ::
        && i == 4
        && trace[i].csvPath == Join(settings.inputDir, CsvFileName)
        && env.readUser(Join(settings.inputDir, AccountFileName)) == Success(Some(trace[i].address))
        && trace[i].address != ""
  {
    var o := Run(settings, dbPath, env);
    StagesRunInOrder(settings, dbPath, env);
    if |o.trace| > 4 {
      ReachedProcessing(settings, dbPath, env);
      OwnerTraceSucceeds(settings, dbPath, env);
      var address := env.readUser(AccountPath(settings)).value.value;
      ProcessActivityProgress(settings, dbPath, env, OwnerTrace(settings, env), address);
    }
  }

  /** The store receives exactly the records the transformer built from that CSV read for that address. */
  lemma StoreGetsTransformedRecords(settings: Settings, dbPath: string, env: Environment)
    ensures var trace := Run(settings, dbPath, env).trace;
      forall i | 0 <= i < |trace| && trace[i].RecordsStored? ::
        && i == 5 && trace[4].CsvTransformed?
        && ActivityTransformer.TransformRead(env.readCsv(trace[4].csvPath), trace[4].address)
             == Success(trace[i].records)
  {
    var o := Run(settings, dbPath, env);
    StagesRunInOrder(settings, dbPath, env);
    if |o.trace| > 5 {
      ReachedProcessing(settings, dbPath, env);
      OwnerTraceSucceeds(settings, dbPath, env);
      var address := env.readUser(AccountPath(settings)).value.value;
      ProcessActivityProgress(settings, dbPath, env, OwnerTrace(settings, env), address);
    }
  }

  /** Whatever happens, the steps a run reaches are a prefix of the fixed stage order. */
  lemma StagesRunInOrder(settings: Settings, dbPath: string, env: Environment)
    ensures var trace := Run(settings, dbPath, env).trace;
      |trace| <= StageCount && forall i | 0 <= i < |trace| :: StageIndex(trace[i]) == i
  {
    if ZipPathOf(settings.inputDir, env.listing).Some? {
      RunProgress(settings, dbPath, env);
    }
  }

  /**
    * A failed run ends at its first failing step: either no zip was found
    * and nothing ran, or the last step reached raised exactly the run's
    * exception and every step before it succeeded.
    */
  lemma RunStopsAtFirstFailure(settings: Settings, dbPath: string, env: Environment)
    requires Run(settings, dbPath, env).result.Failure?
    ensures var o := Run(settings, dbPath, env);
      || (o.trace == [] && o.result.error == FileNotFoundError(NoZipMessage))
      || (&& |o.trace| > 0
          && StepOutcome(env, o.trace[|o.trace| - 1]) == Some(o.result.error)
          && EarlierStepsSucceed(env, o.trace))
  {
    if ZipPathOf(settings.inputDir, env.listing).Some? {
      RunProgress(settings, dbPath, env);
    }
  }

  /**
    * A successful run went through all eleven stages without a failure;
    * the output holds the schema built from the four configured values and
    * the store's schema, which is the schema that was written, uploaded
    * while `schema.json` was open and then closed in, and the URL is the
    * gateway, a slash and the hash the encrypted database was uploaded
    * under.
    */
  lemma SuccessfulRunPublishesDatabase(settings: Settings, dbPath: string, env: Environment)
    requires Run(settings, dbPath, env).result.Success?
    ensures var o := Run(settings, dbPath, env);
      && |o.trace| == StageCount
      && EarlierStepsSucceed(env, o.trace) && StepOutcome(env, o.trace[StageCount - 1]).None?
      && o.result.value.schema == Some(SchemaOf(settings, env))
      && o.trace[6] == SchemaWritten(Join(settings.outputDir, SchemaFileName), SchemaOf(settings, env))
      && o.trace[7] == SchemaUploaded(SchemaOf(settings, env))
      && o.trace[8] == SchemaClosed(Join(settings.outputDir, SchemaFileName))
      && o.trace[9] == DatabaseEncrypted(settings.encryptionKey, dbPath)
      && env.encrypt(settings.encryptionKey, dbPath) == Success(o.trace[10].encryptedPath)
      && env.uploadFile(o.trace[10].encryptedPath).Success?
      && o.result.value.refinementUrl ==
           Some(settings.ipfsGatewayUrl + "/" + env.uploadFile(o.trace[10].encryptedPath).value)
  {
    var o := Run(settings, dbPath, env);
    RunProgress(settings, dbPath, env);
    StagesRunInOrder(settings, dbPath, env);
    ReachedProcessing(settings, dbPath, env);
    var address := env.readUser(AccountPath(settings)).value.value;
    var records := ActivityTransformer.TransformRead(env.readCsv(CsvPath(settings)), address).value;
    var t5 := OwnerTrace(settings, env) + [CsvTransformed(CsvPath(settings), address)] + [RecordsStored(records)];
    assert o == PublishSchema(settings, dbPath, env, t5);
    var schema := SchemaOf(settings, env);
    var t8 := t5 + [SchemaWritten(SchemaPath(settings), schema)] + [SchemaUploaded(schema)]
      + [SchemaClosed(SchemaPath(settings))];
    assert o == PublishDatabase(settings, dbPath, env, t8);
    var encryptedPath := env.encrypt(settings.encryptionKey, dbPath).value;
    assert o.trace == t8 + [DatabaseEncrypted(settings.encryptionKey, dbPath)] + [FileUploaded(encryptedPath)];
  }

  /** The result object; the run fills its fields as stages succeed. */
  class Output {
    var schema: Option<OffChainSchema>
    var refinementUrl: Option<string>

    constructor ()
      ensures schema == None && refinementUrl == None
    {
      schema := None;
      refinementUrl := None;
    }

    function View(): OutputView
      reads this
    {
      OutputView(schema, refinementUrl)
    }
  }

  class Refiner {
    const settings: Settings
    const dbPath: string

    /** The database lives at `db.libsql` in the output directory. */
    constructor (settings: Settings)
      ensures this.settings == settings
      ensures dbPath == Join(settings.outputDir, DbFileName)
    {
      this.settings := settings;
      dbPath := Join(settings.outputDir, DbFileName);
    }

    /** `Refiner.transform`: run every stage in order; the first exception ends the run. */
    method Transform(env: Environment) returns (r: Result<Output, Exception>, ghost trace: seq<Event>)
      ensures trace == Run(settings, dbPath, env).trace
      ensures r.Failure? ==> Run(settings, dbPath, env).result == Failure(r.error)
      ensures r.Success? ==> fresh(r.value) && Run(settings, dbPath, env).result == Success(r.value.View())
    {
      var output := new Output();
      ghost var run := Run(settings, dbPath, env);

      // Find a zip file in the input directory and extract it.
      var zipPath := FindZip(settings.inputDir, env.listing);
      if zipPath.None? {
        return Failure(FileNotFoundError(NoZipMessage)), [];
      }
      trace := [ZipExtracted(zipPath.value, settings.inputDir)];
      var extracted := env.extract(zipPath.value, settings.inputDir);
      if extracted.Some? {
        return Failure(extracted.value), trace;
      }
      assert run == LocateFiles(settings, dbPath, env, trace);

      // Both files must exist, the CSV is checked first.
      var csvFilename := Join(settings.inputDir, CsvFileName);
      var accountFilename := Join(settings.inputDir, AccountFileName);
      trace := trace + [CsvLocated(csvFilename)];
      if !env.fileExists(csvFilename) {
        return Failure(FileNotFoundError(CsvMissingMessage)), trace;
      }
      trace := trace + [AccountLocated(accountFilename)];
      if !env.fileExists(accountFilename) {
        return Failure(FileNotFoundError(AccountMissingMessage)), trace;
      }
      assert run == ReadOwner(settings, dbPath, env, trace);

      // Read the address from account.json.
      trace := trace + [AccountRead(accountFilename)];
      var user := env.readUser(accountFilename);
      if user.Failure? {
        return Failure(user.error), trace;
      }
      if !Truthy(user.value) {
        return Failure(ValueError(NoUserMessage)), trace;
      }
      var address := user.value.value;
      assert run == ProcessActivity(settings, dbPath, env, trace, address);

      // Transform the activity rows and store the records.
      trace := trace + [CsvTransformed(csvFilename, address)];
      var records := ActivityTransformer.Transform(env.readCsv(csvFilename), address);
      if records.Failure? {
        return Failure(records.error), trace;
      }
      trace := trace + [RecordsStored(records.value)];
      var stored := env.store(records.value);
      if stored.Some? {
        return Failure(stored.value), trace;
      }
      assert run == PublishSchema(settings, dbPath, env, trace);

      // Describe the schema and record it on the output; write it, upload it while the file is open, close the file.
      var schema := OffChainSchema(settings.schemaName, settings.schemaVersion,
                                   settings.schemaDescription, settings.schemaDialect, env.storeSchema);
      output.schema := Some(schema);
      var schemaFile := Join(settings.outputDir, SchemaFileName);
      trace := trace + [SchemaWritten(schemaFile, schema)];
      var written := env.writeSchema(schemaFile, schema);
      if written.Some? {
        return Failure(written.value), trace;
      }
      trace := trace + [SchemaUploaded(schema)];
      var schemaHash := env.uploadJson(schema);
      if schemaHash.Failure? {
        return Failure(schemaHash.error), trace;
      }
      trace := trace + [SchemaClosed(schemaFile)];
      var closed := env.closeSchema(schemaFile);
      if closed.Some? {
        return Failure(closed.value), trace;
      }
      assert run == PublishDatabase(settings, dbPath, env, trace);

      // Encrypt and upload the database, then compose the URL.
      trace := trace + [DatabaseEncrypted(settings.encryptionKey, dbPath)];
      var encryptedPath := env.encrypt(settings.encryptionKey, dbPath);
      if encryptedPath.Failure? {
        return Failure(encryptedPath.error), trace;
      }
      trace := trace + [FileUploaded(encryptedPath.value)];
      var ipfsHash := env.uploadFile(encryptedPath.value);
      if ipfsHash.Failure? {
        return Failure(ipfsHash.error), trace;
      }
      output.refinementUrl := Some(settings.ipfsGatewayUrl + "/" + ipfsHash.value);
      r := Success(output);
    }
  }
}
