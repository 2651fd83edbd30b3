/**
 The parser-neutral configuration model.  Field and backend names are enumerated where the code
 compares them with a literal, and kept as text where it does not know them.
 */
module ConfigurationModel {
  import opened BigEndian
  import opened Options

  datatype Value =
    | Null
    | Boolean(boolean: bool)
    | Signed(signed: Int64)
    | Unsigned(unsigned: UInt64)
    | Text(text: string)
    | Array(items: seq<Value>)
    | Object(fields: map<string, Value>)

  datatype FieldName =
    | Directory | Async | AutoDeleteDays | MaxFileSizeBytes | MaxRotatedFiles
    | Compress | CompressLevel | CompressAsync | ExternalCmd | Naming | SeqWidth
    | UseDedicatedExecutor | QueueCapacity | QueuePolicyName
    | HashLength | MaxRecords | MaxBytes | MaxAgeMs
    | OtherField(name: string)

  /** `Fixed` are the known backends without an adapter, `Optional` those a plain build leaves out. */
  datatype BackendType =
    | NoType | FileType | UniqueFileType | MemoryType
    | Fixed(name: string) | Optional(name: string) | Unknown(name: string)

  /** The enumerated name of a field; together with `Spelling` a renaming of the strings. */
  function FieldNamed(s: string): FieldName
  {
    if s == "directory" then Directory
    else if s == "async" then Async
    else if s == "auto_delete_days" then AutoDeleteDays
    else if s == "max_file_size_bytes" then MaxFileSizeBytes
    else if s == "max_rotated_files" then MaxRotatedFiles
    else if s == "compress" then Compress
    else if s == "compress_level" then CompressLevel
    else if s == "compress_async" then CompressAsync
    else if s == "external_cmd" then ExternalCmd
    else FurtherFieldNamed(s)
  }

  function FurtherFieldNamed(s: string): FieldName
  {
    if s == "naming" then Naming
    else if s == "seq_width" then SeqWidth
    else if s == "use_dedicated_executor" then UseDedicatedExecutor
    else if s == "queue_capacity" then QueueCapacity
    else if s == "queue_policy" then QueuePolicyName
    else if s == "hash_length" then HashLength
    else if s == "max_records" then MaxRecords
    else if s == "max_bytes" then MaxBytes
    else if s == "max_age_ms" then MaxAgeMs
    else OtherField(s)
  }

  function Spelling(f: FieldName): string
  {
    match f
    case Directory => "directory"
    case Async => "async"
    case AutoDeleteDays => "auto_delete_days"
    case MaxFileSizeBytes => "max_file_size_bytes"
    case MaxRotatedFiles => "max_rotated_files"
    case Compress => "compress"
    case CompressLevel => "compress_level"
    case CompressAsync => "compress_async"
    case ExternalCmd => "external_cmd"
    case Naming => "naming"
    case SeqWidth => "seq_width"
    case UseDedicatedExecutor => "use_dedicated_executor"
    case QueueCapacity => "queue_capacity"
    case QueuePolicyName => "queue_policy"
    case HashLength => "hash_length"
    case MaxRecords => "max_records"
    case MaxBytes => "max_bytes"
    case MaxAgeMs => "max_age_ms"
    case OtherField(name) => name
  }

  /** Distinct strings have distinct names: a map over names is a map over strings. */
  lemma NamesAreFaithful(s: string, t: string)
    ensures Spelling(FieldNamed(s)) == s
    ensures FieldNamed(s) == FieldNamed(t) <==> s == t
  {
    hide FieldNamed, Spelling;
    SpellingOfName(s);
    SpellingOfName(t);
  }

  lemma SpellingOfName(s: string)
    ensures Spelling(FieldNamed(s)) == s
  {
    hide FurtherFieldNamed;
    SpellingOfFurtherName(s);
  }

  lemma SpellingOfFurtherName(s: string)
    ensures Spelling(FurtherFieldNamed(s)) == s
  {
  }

  type FieldMap = map<FieldName, Value>

  datatype Formatter = Formatter(simple: bool, pattern: Option<string>, jsonFormat: Option<bool>)

  datatype Strategy = Strategy(level: Option<int>, formatter: Option<Formatter>)

  datatype LoggerSpec = LoggerSpec(id: string, backendType: BackendType, strategy: Strategy, backend: FieldMap)

  datatype Document = Document(schemaVersion: UInt32, loggers: seq<LoggerSpec>)

  datatype PlannedLogger = PlannedLogger(
    id: string, backendType: BackendType, strategy: Strategy, backend: FieldMap, requiredBindings: seq<string>)

  datatype Plan = Plan(schemaVersion: UInt32, loggers: seq<PlannedLogger>)

  datatype ErrorCode =
    | UnsupportedSchemaVersion | EmptyLoggerId | DuplicateLoggerId | EmptyBackendType | UnknownBackendType
    | InvalidValue | UnsupportedCombination | UnavailableBackend | MissingProgrammaticBinding | UnknownField
    | BackendValidationFailed | MaterializationFailed | BindingResolutionFailed | InstantiationFailed

  datatype Diagnostic = Diagnostic(code: ErrorCode, path: string)

  function Rebase(d: Diagnostic, prefix: string): Diagnostic
  {
    Diagnostic(d.code, if d.path == "" then prefix else prefix + "." + d.path)
  }

  /** The categories that occur among diagnostics. */
  function Codes(items: seq<Diagnostic>): set<ErrorCode>
  {
    set i | 0 <= i < |items| :: items[i].code
  }

  lemma CodesOfAppend(items: seq<Diagnostic>, d: Diagnostic)
    ensures Codes(items + [d]) == Codes(items) + {d.code}
  {
    var more := items + [d];
    assert more[|items|] == d;
    forall c | c in Codes(items) ensures c in Codes(more) {
      var i :| 0 <= i < |items| && items[i].code == c;
      assert more[i].code == c;
    }
  }

  lemma NoCodes(items: seq<Diagnostic>)
    ensures Codes(items) == {} <==> items == []
  {
    if items != [] { assert items[0].code in Codes(items); }
  }

  /** The ordered diagnostics of one phase. */
  class Diagnostics {
    var items: seq<Diagnostic>

    constructor ()
      ensures items == []
    {
      items := [];
    }

    method Add(code: ErrorCode, path: string)
      modifies this
      ensures items == old(items) + [Diagnostic(code, path)]
      ensures Codes(items) == Codes(old(items)) + {code}
    {
      CodesOfAppend(items, Diagnostic(code, path));
      items := items + [Diagnostic(code, path)];
    }

    /** Every diagnostic of the source, in order, with its path below the prefix. */
    method AppendRebased(source: seq<Diagnostic>, prefix: string)
      modifies this
      ensures |items| == |old(items)| + |source| && items[..|old(items)|] == old(items)
      ensures forall i | 0 <= i < |source| :: items[|old(items)| + i] == Rebase(source[i], prefix)
    {
      for i := 0 to |source|
        invariant |items| == |old(items)| + i && items[..|old(items)|] == old(items)
        invariant forall k | 0 <= k < i :: items[|old(items)| + k] == Rebase(source[k], prefix)
      {
        var path := if source[i].path == "" then prefix else prefix + "." + source[i].path;
        Add(source[i].code, path);
      }
    }
  }
}

/** Validation of the document, and the materialization of a plan through a backend adapter. */
module ConfigurationDocument {
  import D = Decimal
  import opened ConfigurationModel

  // -------------------------------------------------------------- what is valid

  predicate IsPolicyName(s: string)
  {
    s == "block" || s == "drop_newest" || s == "drop_oldest"
  }

  predicate WellTypedExecutorFields(backend: FieldMap)
  {
    && (UseDedicatedExecutor in backend ==> backend[UseDedicatedExecutor].Boolean?)
    && (Async in backend ==> backend[Async].Boolean?)
    && (QueuePolicyName in backend ==> backend[QueuePolicyName].Text? && IsPolicyName(backend[QueuePolicyName].text))
    && (QueueCapacity in backend ==> backend[QueueCapacity].Unsigned?)
  }

  /** Queue settings are only given to an executor of the logger's own. */
  predicate QueueHasExecutor(backend: FieldMap)
  {
    QueuePolicyName in backend || QueueCapacity in backend ==>
      && UseDedicatedExecutor in backend && backend[UseDedicatedExecutor] == Boolean(true)
      && (Async in backend ==> backend[Async] != Boolean(false))
  }

  predicate GoodExecutorFields(backend: FieldMap)
  {
    WellTypedExecutorFields(backend) && QueueHasExecutor(backend)
  }

  predicate GoodStrategy(s: Strategy)
  {
    && (s.level.Some? ==> 0 <= s.level.value <= 5)
    && (s.formatter.Some? ==> s.formatter.value.simple)
  }

  predicate KnownBackend(t: BackendType)
  {
    !t.NoType? && !t.Unknown?
  }

  predicate GoodLogger(logger: LoggerSpec)
  {
    && logger.id != ""
    && KnownBackend(logger.backendType)
    && GoodStrategy(logger.strategy)
    && GoodExecutorFields(logger.backend)
  }

  predicate DistinctIds(loggers: seq<LoggerSpec>)
  {
    forall i, j | 0 <= i < j < |loggers| :: loggers[i].id != loggers[j].id
  }

  predicate ValidDocument(document: Document)
  {
    && document.schemaVersion == 1
    && (forall i | 0 <= i < |document.loggers| :: GoodLogger(document.loggers[i]))
    && DistinctIds(document.loggers)
  }

  // ---------------------------------------------------------- what is reported

  function When(c: bool, code: ErrorCode): set<ErrorCode>
  {
    if c then {code} else {}
  }

  function ExecutorDefects(backend: FieldMap): set<ErrorCode>
  {
    When(!WellTypedExecutorFields(backend), InvalidValue) + When(!QueueHasExecutor(backend), UnsupportedCombination)
  }

  /** The defects of a logger on its own. */
  function LoggerDefects(logger: LoggerSpec): set<ErrorCode>
  {
    When(logger.id == "", EmptyLoggerId)
    + When(logger.backendType.NoType?, EmptyBackendType)
    + When(logger.backendType.Unknown?, UnknownBackendType)
    + When(!GoodStrategy(logger.strategy), InvalidValue)
    + ExecutorDefects(logger.backend)
  }

  /** The defects of a document, by category. */
  ghost predicate Defective(document: Document, code: ErrorCode)
  {
    match code
    case UnsupportedSchemaVersion => document.schemaVersion != 1
    case DuplicateLoggerId =>
      exists i, j | 0 <= i < j < |document.loggers| :: document.loggers[i].id == document.loggers[j].id != ""
    case _ => exists i | 0 <= i < |document.loggers| :: code in LoggerDefects(document.loggers[i])
  }

  lemma GoodMeansNoDefect(logger: LoggerSpec)
    ensures GoodLogger(logger) <==> LoggerDefects(logger) == {}
    ensures LoggerDefects(logger) <= {EmptyLoggerId, EmptyBackendType, UnknownBackendType, InvalidValue, UnsupportedCombination}
  {
    hide WellTypedExecutorFields, QueueHasExecutor;
    assert logger.id == "" ==> EmptyLoggerId in LoggerDefects(logger);
    assert logger.backendType.NoType? ==> EmptyBackendType in LoggerDefects(logger);
    assert logger.backendType.Unknown? ==> UnknownBackendType in LoggerDefects(logger);
    assert !GoodStrategy(logger.strategy) ==> InvalidValue in LoggerDefects(logger);
    assert !WellTypedExecutorFields(logger.backend) ==> InvalidValue in LoggerDefects(logger);
    assert !QueueHasExecutor(logger.backend) ==> UnsupportedCombination in LoggerDefects(logger);
  }

  lemma ValidHasNoDefect(document: Document, code: ErrorCode)
    requires ValidDocument(document)
    ensures !Defective(document, code)
  {
    hide GoodLogger, LoggerDefects;
    forall i | 0 <= i < |document.loggers| ensures LoggerDefects(document.loggers[i]) == {} {
      GoodMeansNoDefect(document.loggers[i]);
    }
  }

  lemma NoDefectIsValid(document: Document)
    requires forall code :: !Defective(document, code)
    ensures ValidDocument(document)
  {
    hide GoodLogger, LoggerDefects;
    assert !Defective(document, UnsupportedSchemaVersion) && !Defective(document, DuplicateLoggerId);
    forall i | 0 <= i < |document.loggers| ensures GoodLogger(document.loggers[i]) && document.loggers[i].id != "" {
      NoDefectMeansGood(document, i);
    }
  }

  /** A document is valid exactly when it has no defect of any category. */
  lemma ValidMeansNoDefect(document: Document)
    ensures ValidDocument(document) <==> forall code :: !Defective(document, code)
  {
    hide ValidDocument, Defective;
    if ValidDocument(document) {
      forall code ensures !Defective(document, code) { ValidHasNoDefect(document, code); }
    }
    if forall code :: !Defective(document, code) { NoDefectIsValid(document); }
  }

  lemma NoDefectMeansGood(document: Document, i: nat)
    requires i < |document.loggers| && forall code :: !Defective(document, code)
    ensures GoodLogger(document.loggers[i]) && document.loggers[i].id != ""
  {
    hide LoggerDefects, GoodLogger, Defective;
    var logger := document.loggers[i];
    forall code ensures code in LoggerDefects(logger) ==> Defective(document, code) {
      DefectShows(document, i, code);
    }
    GoodMeansNoDefect(logger);
    GoodHasId(logger);
  }

  lemma DefectShows(document: Document, i: nat, code: ErrorCode)
    requires i < |document.loggers|
    ensures code in LoggerDefects(document.loggers[i]) ==> Defective(document, code)
  {
    hide LoggerDefects;
    GoodMeansNoDefect(document.loggers[i]);
  }

  // ----------------------------------------------------------------- validation

  function PathOf(index: nat): string
  {
    "loggers[" + D.Text(index) + "]"
  }

  function FieldPath(path: string, name: FieldName): string
  {
    path + ".backend." + Spelling(name)
  }

  /** The value of an optional boolean, or the fallback when it is absent or of another type. */
  function BoolOr(backend: FieldMap, name: FieldName, fallback: bool): bool
  {
    if name in backend && backend[name].Boolean? then backend[name].boolean else fallback
  }

  method ValidateExecutorFields(backend: FieldMap, path: string, diagnostics: Diagnostics)
    modifies diagnostics
    ensures old(diagnostics.items) <= diagnostics.items
    ensures Codes(diagnostics.items) == Codes(old(diagnostics.items)) + ExecutorDefects(backend)
  {
    hide Codes, IsPolicyName, FieldPath;
    if UseDedicatedExecutor in backend && !backend[UseDedicatedExecutor].Boolean? {
      diagnostics.Add(InvalidValue, FieldPath(path, UseDedicatedExecutor));
    }
    if Async in backend && !backend[Async].Boolean? {
      diagnostics.Add(InvalidValue, FieldPath(path, Async));
    }
    var dedicated := BoolOr(backend, UseDedicatedExecutor, false);
    var async := BoolOr(backend, Async, true);
    var hasExecutorField := QueueCapacity in backend || QueuePolicyName in backend;
    if hasExecutorField && (UseDedicatedExecutor !in backend || !dedicated || (Async in backend && !async)) {
      diagnostics.Add(UnsupportedCombination, path + ".backend");
    }
    if QueuePolicyName in backend {
      var policy := backend[QueuePolicyName];
      if !policy.Text? || !IsPolicyName(policy.text) {
        diagnostics.Add(InvalidValue, FieldPath(path, QueuePolicyName));
      }
    }
    if QueueCapacity in backend && !backend[QueueCapacity].Unsigned? {
      diagnostics.Add(InvalidValue, FieldPath(path, QueueCapacity));
    }
  }

  method ValidateStrategy(strategy: Strategy, path: string, diagnostics: Diagnostics)
    modifies diagnostics
    ensures old(diagnostics.items) <= diagnostics.items
    ensures Codes(diagnostics.items) == Codes(old(diagnostics.items)) + When(!GoodStrategy(strategy), InvalidValue)
    ensures diagnostics.items == old(diagnostics.items) <==>
              && (strategy.level.Some? ==> strategy.level.value in {0, 1, 2, 3, 4, 5})
              && (strategy.formatter.Some? ==> strategy.formatter.value.simple)
  {
    hide Codes;
    if strategy.level.Some? && !(0 <= strategy.level.value <= 5) {
      diagnostics.Add(InvalidValue, path + ".strategy.level");
    }
    if strategy.formatter.Some? && !strategy.formatter.value.simple {
      diagnostics.Add(InvalidValue, path + ".strategy.formatter.type");
    }
  }

  /** One turn of the validation loop; `seen` are the ids met so far. */
  method ValidateLogger(logger: LoggerSpec, path: string, seen: set<string>, diagnostics: Diagnostics)
    returns (seen': set<string>)
    modifies diagnostics
    ensures old(diagnostics.items) <= diagnostics.items
    ensures Codes(diagnostics.items) ==
              Codes(old(diagnostics.items)) + LoggerDefects(logger)
              + When(logger.id != "" && logger.id in seen, DuplicateLoggerId)
    ensures seen' == if logger.id == "" then seen else seen + {logger.id}
  {
    hide Codes, ExecutorDefects, GoodStrategy;
    seen' := seen;
    if logger.id == "" {
      diagnostics.Add(EmptyLoggerId, path + ".id");
    } else if logger.id in seen {
      diagnostics.Add(DuplicateLoggerId, path + ".id");
    } else {
      seen' := seen + {logger.id};
    }
    if logger.backendType.NoType? {
      diagnostics.Add(EmptyBackendType, path + ".type");
    } else if logger.backendType.Unknown? {
      diagnostics.Add(UnknownBackendType, path + ".type");
    }
    ValidateStrategy(logger.strategy, path, diagnostics);
    ValidateExecutorFields(logger.backend, path, diagnostics);
  }

  /** Each category is reported exactly when the document has that defect; none is for the valid ones only. */
  method ValidateConfiguration(document: Document) returns (diagnostics: Diagnostics)
    ensures fresh(diagnostics)
    ensures forall code :: code in Codes(diagnostics.items) <==> Defective(document, code)
    ensures diagnostics.items == [] <==> ValidDocument(document)
  {
    hide LoggerDefects, Codes, ValidDocument, Reported, SeenIds;
    diagnostics := new Diagnostics();
    NoCodes(diagnostics.items);
    if document.schemaVersion != 1 {
      diagnostics.Add(UnsupportedSchemaVersion, "schema_version");
    }
    var seen: set<string> := {};
    NothingReported(document);
    assert Codes(diagnostics.items) == When(document.schemaVersion != 1, UnsupportedSchemaVersion);
    for i := 0 to |document.loggers|
      invariant Reported(Codes(diagnostics.items), document, i) && SeenIds(seen, document, i)
    {
      OneMoreReported(document, i, Codes(diagnostics.items), seen);
      seen := ValidateLogger(document.loggers[i], PathOf(i), seen, diagnostics);
    }
    AllReported(Codes(diagnostics.items), document);
    ValidMeansNoDefect(document);
    NoCodes(diagnostics.items);
  }

  /** The categories are those of the first `i` loggers. */
  ghost predicate Reported(codes: set<ErrorCode>, document: Document, i: nat)
    requires i <= |document.loggers|
  {
    forall code :: code in codes <==> Defective(document.(loggers := document.loggers[..i]), code)
  }

  ghost predicate SeenIds(seen: set<string>, document: Document, i: nat)
    requires i <= |document.loggers|
  {
    forall id :: id in seen <==> id != "" && exists k | 0 <= k < i :: document.loggers[k].id == id
  }

  lemma NothingReported(document: Document)
    ensures Reported(When(document.schemaVersion != 1, UnsupportedSchemaVersion), document, 0)
    ensures SeenIds({}, document, 0)
  {
  }

  lemma AllReported(codes: set<ErrorCode>, document: Document)
    requires Reported(codes, document, |document.loggers|)
    ensures forall code :: code in codes <==> Defective(document, code)
  {
    assert document.loggers[..|document.loggers|] == document.loggers;
  }

  lemma OneMoreReported(document: Document, i: nat, codes: set<ErrorCode>, seen: set<string>)
    requires i < |document.loggers| && Reported(codes, document, i) && SeenIds(seen, document, i)
    ensures var logger := document.loggers[i];
            && Reported(codes + LoggerDefects(logger) + When(logger.id != "" && logger.id in seen, DuplicateLoggerId), document, i + 1)
            && SeenIds(if logger.id == "" then seen else seen + {logger.id}, document, i + 1)
  {
    hide LoggerDefects, Defective;
    var logger := document.loggers[i];
    GoodMeansNoDefect(logger);
    var codes' := codes + LoggerDefects(logger) + When(logger.id != "" && logger.id in seen, DuplicateLoggerId);
    forall code ensures code in codes' <==> Defective(document.(loggers := document.loggers[..i + 1]), code) {
      OneMore(document, i, code);
      assert code in codes <==> Defective(document.(loggers := document.loggers[..i]), code);
    }
    assert Reported(codes', document, i + 1);
  }

  lemma GoodHasId(logger: LoggerSpec)
    ensures GoodLogger(logger) ==> logger.id != ""
  {
  }

  /** The defects that the logger at `i` adds to those of the loggers before it. */
  ghost predicate DefectAt(document: Document, i: nat, code: ErrorCode)
    requires i < |document.loggers|
  {
    var logger := document.loggers[i];
    match code
    case UnsupportedSchemaVersion => false
    case DuplicateLoggerId => logger.id != "" && exists k | 0 <= k < i :: document.loggers[k].id == logger.id
    case _ => code in LoggerDefects(logger)
  }

  lemma OneMore(document: Document, i: nat, code: ErrorCode)
    requires i < |document.loggers|
    ensures Defective(document.(loggers := document.loggers[..i + 1]), code) <==>
              Defective(document.(loggers := document.loggers[..i]), code) || DefectAt(document, i, code)
  {
    hide LoggerDefects;
    if code.DuplicateLoggerId? {
      OneMoreDuplicate(document, i);
    } else {
      OneMoreDefect(document, i, code);
    }
  }

  lemma OneMoreDefect(document: Document, i: nat, code: ErrorCode)
    requires i < |document.loggers| && !code.DuplicateLoggerId?
    ensures Defective(document.(loggers := document.loggers[..i + 1]), code) <==>
              Defective(document.(loggers := document.loggers[..i]), code) || DefectAt(document, i, code)
  {
    hide LoggerDefects;
    var more, less := document.loggers[..i + 1], document.loggers[..i];
    assert forall k | 0 <= k < i :: more[k] == less[k];
    assert more[i] == document.loggers[i];
  }

  lemma OneMoreDuplicate(document: Document, i: nat)
    requires i < |document.loggers|
    ensures Defective(document.(loggers := document.loggers[..i + 1]), DuplicateLoggerId) <==>
              || Defective(document.(loggers := document.loggers[..i]), DuplicateLoggerId)
              || DefectAt(document, i, DuplicateLoggerId)
  {
    hide LoggerDefects;
    var more, less := document.loggers[..i + 1], document.loggers[..i];
    assert forall k | 0 <= k < i :: more[k] == less[k];
    assert more[i] == document.loggers[i];
    if DefectAt(document, i, DuplicateLoggerId) {
      var k :| 0 <= k < i && document.loggers[k].id == document.loggers[i].id;
      assert more[k].id == more[i].id;
    }
  }

  // ------------------------------------------------------------ materialization

  datatype Verdict = Verdict(ok: bool, diagnostics: seq<Diagnostic>)
  {
    /** Returning success together with a diagnostic is a failure all the same. */
    predicate Clean() { ok && diagnostics == [] }
  }

  /** A backend adapter: any functions of these types. */
  datatype Materializer = Materializer(
    validate: LoggerSpec -> Verdict,
    materialize: LoggerSpec -> (Verdict, PlannedLogger))

  predicate Accepts(m: Materializer, logger: LoggerSpec)
  {
    m.validate(logger).Clean() && m.materialize(logger).0.Clean()
  }

  /** The diagnostics of a rejected entry are passed on, or one is made up. */
  method Report(verdict: Verdict, code: ErrorCode, path: string, prefix: string, diagnostics: Diagnostics)
    requires !verdict.Clean()
    modifies diagnostics
    ensures diagnostics.items != []
  {
    if verdict.diagnostics == [] {
      diagnostics.Add(code, path);
    } else {
      diagnostics.AppendRebased(verdict.diagnostics, prefix);
    }
  }

  method ValidateBackends(document: Document, m: Materializer, diagnostics: Diagnostics) returns (ok: bool)
    requires diagnostics.items == []
    modifies diagnostics
    ensures ok <==> diagnostics.items == []
    ensures ok <==> forall k | 0 <= k < |document.loggers| :: m.validate(document.loggers[k]).Clean()
  {
    for i := 0 to |document.loggers|
      invariant diagnostics.items == []
      invariant forall k | 0 <= k < i :: m.validate(document.loggers[k]).Clean()
    {
      var verdict := m.validate(document.loggers[i]);
      if !verdict.Clean() {
        Report(verdict, BackendValidationFailed, PathOf(i) + ".backend", PathOf(i), diagnostics);
        return false;
      }
    }
    return true;
  }

  /**
   Success exactly when there is no diagnostic, exactly when the document is valid and the adapter
   accepts every logger; the plan is then complete, and otherwise it is the one passed in.
   */
  method MaterializeConfiguration(document: Document, m: Materializer, oldPlan: Plan)
    returns (ok: bool, plan: Plan, diagnostics: Diagnostics)
    ensures ok <==> diagnostics.items == []
    ensures ok <==> ValidDocument(document) && forall k | 0 <= k < |document.loggers| :: Accepts(m, document.loggers[k])
    ensures !ok ==> plan == oldPlan
    ensures ok ==> plan.schemaVersion == document.schemaVersion && |plan.loggers| == |document.loggers|
    ensures ok ==> forall k | 0 <= k < |document.loggers| :: plan.loggers[k] == m.materialize(document.loggers[k]).1
  {
    hide ValidDocument;
    plan := oldPlan;
    diagnostics := ValidateConfiguration(document);
    if diagnostics.items != [] {
      return false, plan, diagnostics;
    }
    ok := ValidateBackends(document, m, diagnostics);
    if !ok {
      return;
    }
    var candidate := Plan(document.schemaVersion, []);
    for i := 0 to |document.loggers|
      invariant diagnostics.items == [] && |candidate.loggers| == i && candidate.schemaVersion == document.schemaVersion
      invariant forall k | 0 <= k < i :: Accepts(m, document.loggers[k])
      invariant forall k | 0 <= k < i :: candidate.loggers[k] == m.materialize(document.loggers[k]).1
    {
      var (verdict, output) := m.materialize(document.loggers[i]);
      if !verdict.Clean() {
        Report(verdict, MaterializationFailed, PathOf(i), PathOf(i), diagnostics);
        return false, plan, diagnostics;
      }
      candidate := candidate.(loggers := candidate.loggers + [output]);
    }
    plan := candidate;
  }
}
