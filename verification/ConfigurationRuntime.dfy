/** Bindings of programmatic resources, and the instantiation of a plan. */
module ConfigurationRuntime {
  import opened ConfigurationModel
  import opened ConfigurationDocument
  import opened Options

  // -------------------------------------------------------------------- bindings

  type TypeId = nat
  type Handle = nat

  /** A bound resource: a shared pointer, possibly empty, and the type it was bound with. */
  datatype Binding = Binding(value: Option<Handle>, typeId: TypeId)

  datatype BindingSet = BindingSet(values: map<string, Binding>)
  {
    predicate Contains(name: string) { name in values && values[name].value.Some? }

    function Set(name: string, value: Option<Handle>, typeId: TypeId): BindingSet
    {
      BindingSet(values[name := Binding(value, typeId)])
    }

    function Get(name: string, typeId: TypeId): Option<Handle>
    {
      if name !in values || values[name].value.None? || values[name].typeId != typeId then None else values[name].value
    }
  }

  /** A resource is got back under its own name and type only; the last one set under a name counts. */
  lemma GetAfterSet(b: BindingSet, name: string, value: Option<Handle>, typeId: TypeId, other: string, asType: TypeId)
    ensures b.Set(name, value, typeId).Get(other, asType)
         == if other != name then b.Get(other, asType) else if asType == typeId then value else None
    ensures b.Set(name, value, typeId).Contains(name) <==> value.Some?
    ensures b.Contains(other) <==> exists t :: b.Get(other, t).Some?
  {
    if b.Contains(other) { assert b.Get(other, b.values[other].typeId).Some?; }
  }

  // --------------------------------------------------------------- instantiation

  /** Any resolver: what it returns, the bindings it made and the diagnostics it gave. */
  type Resolver = PlannedLogger -> (Verdict, BindingSet)

  /** Any factory; no logger is an empty pointer. */
  type Factory<!L> = (PlannedLogger, BindingSet) -> (Option<L>, seq<Diagnostic>)

  predicate Bound(b: BindingSet, required: seq<string>)
  {
    forall i | 0 <= i < |required| :: b.Contains(required[i])
  }

  predicate Resolves(resolve: Resolver, entry: PlannedLogger)
  {
    resolve(entry).0.Clean() && Bound(resolve(entry).1, entry.requiredBindings)
  }

  predicate Builds<L>(resolve: Resolver, make: Factory<L>, entry: PlannedLogger)
  {
    var (logger, diagnostics) := make(entry, resolve(entry).1);
    logger.Some? && diagnostics == []
  }

  /** The diagnostics for the required bindings that are missing. */
  method MissingBindings(b: BindingSet, required: seq<string>, local: seq<Diagnostic>) returns (local': seq<Diagnostic>)
    ensures local <= local' && (local' == local <==> Bound(b, required))
  {
    local' := local;
    for i := 0 to |required|
      invariant local <= local' && (local' == local <==> Bound(b, required[..i]))
    {
      assert required[..i + 1] == required[..i] + [required[i]];
      if !b.Contains(required[i]) {
        local' := local' + [Diagnostic(MissingProgrammaticBinding, "binding." + required[i])];
        assert !Bound(b, required[..i + 1]) by { assert required[..i + 1][i] == required[i]; }
      } else {
        StillBound(b, required, i);
      }
    }
    assert required[..|required|] == required;
  }

  lemma StillBound(b: BindingSet, required: seq<string>, i: nat)
    requires i < |required| && b.Contains(required[i])
    ensures Bound(b, required[..i + 1]) <==> Bound(b, required[..i])
  {
    if Bound(b, required[..i + 1]) {
      forall k | 0 <= k < i ensures b.Contains(required[..i][k]) { assert required[..i + 1][k] == required[k]; }
    }
  }

  /** The first phase: all bindings are tried, whatever fails. */
  method ResolveAll(plan: Plan, resolve: Resolver, diagnostics: Diagnostics) returns (ok: bool, bindings: seq<BindingSet>)
    requires diagnostics.items == []
    modifies diagnostics
    ensures ok <==> diagnostics.items == []
    ensures ok <==> forall k | 0 <= k < |plan.loggers| :: Resolves(resolve, plan.loggers[k])
    ensures |bindings| == |plan.loggers|
    ensures forall k | 0 <= k < |plan.loggers| :: bindings[k] == resolve(plan.loggers[k]).1
  {
    ok, bindings := true, [];
    for i := 0 to |plan.loggers|
      invariant ok <==> diagnostics.items == []
      invariant ok <==> forall k | 0 <= k < i :: Resolves(resolve, plan.loggers[k])
      invariant |bindings| == i && forall k | 0 <= k < i :: bindings[k] == resolve(plan.loggers[k]).1
    {
      var entry := plan.loggers[i];
      var (verdict, bound) := resolve(entry);
      var local := MissingBindings(bound, entry.requiredBindings, verdict.diagnostics);
      if !verdict.ok || local != [] {
        ok := false;
        if local == [] {
          diagnostics.Add(BindingResolutionFailed, PathOf(i) + ".binding");
        } else {
          diagnostics.AppendRebased(local, PathOf(i));
        }
        assert !Resolves(resolve, entry);
      }
      bindings := bindings + [bound];
    }
  }

  /**
   Success exactly when there is no diagnostic, exactly when every entry resolves and is built; the
   loggers are then one per entry, and otherwise they are the ones passed in.
   */
  method InstantiateConfiguration<L>(plan: Plan, resolve: Resolver, make: Factory<L>, oldLoggers: seq<L>)
    returns (ok: bool, loggers: seq<L>, diagnostics: Diagnostics)
    ensures ok <==> diagnostics.items == []
    ensures ok <==> forall k | 0 <= k < |plan.loggers| ::
                      Resolves(resolve, plan.loggers[k]) && Builds(resolve, make, plan.loggers[k])
    ensures !ok ==> loggers == oldLoggers
    ensures ok ==> |loggers| == |plan.loggers|
    ensures ok ==> forall k | 0 <= k < |plan.loggers| ::
                     Some(loggers[k]) == make(plan.loggers[k], resolve(plan.loggers[k]).1).0
  {
    loggers := oldLoggers;
    diagnostics := new Diagnostics();
    var bindings;
    ok, bindings := ResolveAll(plan, resolve, diagnostics);
    if !ok {
      return;
    }
    var candidate: seq<L> := [];
    for i := 0 to |plan.loggers|
      invariant diagnostics.items == [] && |candidate| == i
      invariant forall k | 0 <= k < i :: Builds(resolve, make, plan.loggers[k])
      invariant forall k | 0 <= k < i :: Some(candidate[k]) == make(plan.loggers[k], resolve(plan.loggers[k]).1).0
    {
      var (logger, local) := make(plan.loggers[i], bindings[i]);
      if logger.None? || local != [] {
        if local == [] {
          diagnostics.Add(InstantiationFailed, PathOf(i));
        } else {
          diagnostics.AppendRebased(local, PathOf(i));
        }
        assert !Builds(resolve, make, plan.loggers[i]);
        return false, loggers, diagnostics;
      }
      candidate := candidate + [logger.value];
    }
    loggers := candidate;
  }
}

/** The phases together, with the built-in adapter and the built-in factory. */
module ConfigurationPipeline {
  import opened BigEndian
  import opened ConfigurationModel
  import opened ConfigurationDocument
  import opened ConfigurationBuiltins
  import opened ConfigurationReaders
  import opened ConfigurationRuntime
  import opened Options
  import opened QueuePolicies

  // ------------------------------------------------------------------ the settings

  /** The value of a setting: the one given, or else the default. */
  function Setting(logger: LoggerSpec, f: FieldName): Value
    requires f in logger.backend || Default(logger.backendType, f).Some?
  {
    if f in logger.backend then logger.backend[f] else Default(logger.backendType, f).value
  }

  lemma PlannedSetting(logger: LoggerSpec, output: PlannedLogger, f: FieldName)
    requires BackendValid(logger) && IsMaterialized(logger, output) && Default(logger.backendType, f).Some?
    ensures f in output.backend && output.backend[f] == Setting(logger, f)
    ensures Suits(f, output.backend[f]) && Readable(output.backend, f)
  {
    hide Default, FieldAllowed;
    DefaultsSuit(logger.backendType, f);
  }

  /** A logger has its executor settings: the explicit values or the defaults. */
  predicate ExecutorHas(dedicated: bool, capacity: UInt64, policy: QueuePolicy, l: LoggerSpec)
    requires l.backendType.FileType? || l.backendType.UniqueFileType?
  {
    && Boolean(dedicated) == Setting(l, UseDedicatedExecutor)
    && Unsigned(capacity) == Setting(l, QueueCapacity)
    && Setting(l, QueuePolicyName).Text? && PolicyNamed(Setting(l, QueuePolicyName).text) == Some(policy)
  }

  predicate RotationHas(r: Rotation, l: LoggerSpec)
    requires l.backendType.FileType?
  {
    && Setting(l, Compress).Text? && CompressionNamed(Setting(l, Compress).text) == Some(r.compress)
    && Setting(l, CompressLevel).Signed? && r.level == ToInt32(Setting(l, CompressLevel).signed)
    && Boolean(r.async) == Setting(l, CompressAsync)
    && Text(r.command) == Setting(l, ExternalCmd)
    && Setting(l, Naming).Text? && NamingNamed(Setting(l, Naming).text) == Some(r.naming)
    && Setting(l, SeqWidth).Unsigned? && r.width == ToUInt32(Setting(l, SeqWidth).unsigned)
  }

  predicate FileHas(c: FileConfig, l: LoggerSpec)
    requires l.backendType.FileType?
  {
    && Text(c.directory) == Setting(l, Directory)
    && Boolean(c.async) == Setting(l, Async)
    && Setting(l, AutoDeleteDays).Signed? && c.autoDeleteDays == ToInt32(Setting(l, AutoDeleteDays).signed)
    && Unsigned(c.maxFileSizeBytes) == Setting(l, MaxFileSizeBytes)
    && Setting(l, MaxRotatedFiles).Unsigned? && c.maxRotatedFiles == ToUInt32(Setting(l, MaxRotatedFiles).unsigned)
    && RotationHas(RotationOf(c), l)
    && ExecutorHas(c.useDedicatedExecutor, c.queueCapacity, c.queuePolicy, l)
  }

  predicate UniqueFileHas(c: UniqueFileConfig, l: LoggerSpec)
    requires l.backendType.UniqueFileType?
  {
    && Text(c.directory) == Setting(l, Directory)
    && Boolean(c.async) == Setting(l, Async)
    && Setting(l, AutoDeleteDays).Signed? && c.autoDeleteDays == ToInt32(Setting(l, AutoDeleteDays).signed)
    && Unsigned(c.hashLength) == Setting(l, HashLength)
    && ExecutorHas(c.useDedicatedExecutor, c.queueCapacity, c.queuePolicy, l)
  }

  predicate MemoryHas(c: MemoryConfig, l: LoggerSpec)
    requires l.backendType.MemoryType?
  {
    && Unsigned(c.maxRecords) == Setting(l, MaxRecords)
    && Unsigned(c.maxBytes) == Setting(l, MaxBytes)
    && Signed(c.maxAgeMs) == Setting(l, MaxAgeMs)
  }

  /** Each setting of the runtime logger is the explicit value or the default, converted to its width. */
  predicate HasSettings(r: RuntimeLogger, l: LoggerSpec)
  {
    match l.backendType
    case FileType => r.FileLogger? && FileHas(r.file, l)
    case UniqueFileType => r.UniqueFileLogger? && UniqueFileHas(r.unique, l)
    case MemoryType => r.MemoryLogger? && MemoryHas(r.memory, l)
    case _ => false
  }

  // ------------------------------------------------------------- what readers take

  predicate PolicyIsKnown(logger: LoggerSpec)
  {
    QueuePolicyName in logger.backend ==>
      logger.backend[QueuePolicyName].Text? && IsPolicyName(logger.backend[QueuePolicyName].text)
  }

  lemma PolicyPlanned(logger: LoggerSpec, output: PlannedLogger)
    requires BackendValid(logger) && IsMaterialized(logger, output) && !logger.backendType.MemoryType?
    ensures PolicyReadable(output.backend) <==> PolicyIsKnown(logger)
  {
    PlannedSetting(logger, output, QueuePolicyName);
  }

  lemma ExecutorPlanned(logger: LoggerSpec, output: PlannedLogger, dedicated: bool, capacity: UInt64)
    requires BackendValid(logger) && IsMaterialized(logger, output) && (logger.backendType.FileType? || logger.backendType.UniqueFileType?)
    ensures ExecutorReadable(output.backend) <==> PolicyIsKnown(logger)
    ensures PolicyIsKnown(logger) ==>
              var e := ExecutorRead(output.backend, dedicated, capacity); ExecutorHas(e.0, e.1, e.2, logger)
  {
    hide BackendValid, IsMaterialized, Suits, PolicyIsKnown, PolicyNamed;
    PolicyPlanned(logger, output);
    PlannedSetting(logger, output, UseDedicatedExecutor);
    PlannedSetting(logger, output, QueueCapacity);
    PlannedSetting(logger, output, QueuePolicyName);
  }

  /** The parts of a file entry that do not depend on the queue policy can always be read. */
  lemma RotationPlanned(logger: LoggerSpec, output: PlannedLogger, c: Rotation)
    requires BackendValid(logger) && IsMaterialized(logger, output) && logger.backendType.FileType?
    ensures RotationReadable(output.backend) && RotationHas(RotationRead(output.backend, c), logger)
  {
    hide BackendValid, IsMaterialized, ToInt32, ToUInt32;
    PlannedSetting(logger, output, Compress);
    PlannedSetting(logger, output, CompressLevel);
    PlannedSetting(logger, output, CompressAsync);
    PlannedSetting(logger, output, ExternalCmd);
    PlannedSetting(logger, output, Naming);
    PlannedSetting(logger, output, SeqWidth);
  }

  lemma FileGetsItsSettings(logger: LoggerSpec, output: PlannedLogger, c: FileConfig)
    requires BackendValid(logger) && IsMaterialized(logger, output) && logger.backendType.FileType?
    ensures FileReadable(output.backend) <==> PolicyIsKnown(logger)
    ensures PolicyIsKnown(logger) ==> FileHas(FileRead(output.backend, c), logger)
  {
    hide BackendValid, IsMaterialized, Suits, ToInt32, ToUInt32, PolicyIsKnown;
    hide RotationReadable, RotationHas, RotationRead, ExecutorReadable, ExecutorHas, ExecutorRead;
    RotationPlanned(logger, output, RotationOf(c));
    ExecutorPlanned(logger, output, c.useDedicatedExecutor, c.queueCapacity);
    PlannedSetting(logger, output, Directory);
    PlannedSetting(logger, output, Async);
    PlannedSetting(logger, output, AutoDeleteDays);
    PlannedSetting(logger, output, MaxFileSizeBytes);
    PlannedSetting(logger, output, MaxRotatedFiles);
  }

  lemma UniqueFileGetsItsSettings(logger: LoggerSpec, output: PlannedLogger, c: UniqueFileConfig)
    requires BackendValid(logger) && IsMaterialized(logger, output) && logger.backendType.UniqueFileType?
    ensures UniqueFileReadable(output.backend) <==> PolicyIsKnown(logger)
    ensures PolicyIsKnown(logger) ==> UniqueFileHas(UniqueFileRead(output.backend, c), logger)
  {
    hide BackendValid, IsMaterialized, Suits, ToInt32, PolicyIsKnown, ExecutorReadable, ExecutorHas, ExecutorRead;
    ExecutorPlanned(logger, output, c.useDedicatedExecutor, c.queueCapacity);
    PlannedSetting(logger, output, Directory);
    PlannedSetting(logger, output, Async);
    PlannedSetting(logger, output, AutoDeleteDays);
    PlannedSetting(logger, output, HashLength);
  }

  lemma MemoryGetsItsSettings(logger: LoggerSpec, output: PlannedLogger, c: MemoryConfig)
    requires BackendValid(logger) && IsMaterialized(logger, output) && logger.backendType.MemoryType?
    ensures MemoryReadable(output.backend) && PolicyIsKnown(logger)
    ensures MemoryHas(MemoryRead(output.backend, c), logger)
  {
    PlannedSetting(logger, output, MaxRecords);
    PlannedSetting(logger, output, MaxBytes);
    PlannedSetting(logger, output, MaxAgeMs);
  }

  /**
   The adapter on its own lets any text through as a queue policy: its output is readable exactly
   when the policy, if one is given, is a policy's name; and what is read then has the logger's settings.
   */
  lemma ReadableExactlyWhenPolicyIsKnown(logger: LoggerSpec, output: PlannedLogger)
    requires BackendValid(logger) && IsMaterialized(logger, output)
    ensures ReadableEntry(output) <==> PolicyIsKnown(logger)
    ensures ReadableEntry(output) ==> HasSettings(Described(output), logger)
  {
    hide Complete, FieldAllowed, Suits, PolicyIsKnown, FileReadable, UniqueFileReadable, MemoryReadable;
    hide FileHas, UniqueFileHas, MemoryHas, FileRead, UniqueFileRead, MemoryRead;
    match logger.backendType
    case FileType => FileGetsItsSettings(logger, output, FILE_CONFIG);
    case UniqueFileType => UniqueFileGetsItsSettings(logger, output, UNIQUE_FILE_CONFIG);
    case MemoryType => MemoryGetsItsSettings(logger, output, MEMORY_CONFIG);
  }

  /** Such a text, with a file backend: the adapter accepts the logger and the reader cannot read it. */
  lemma AdapterAloneIsTooLenient(output: PlannedLogger)
    requires IsMaterialized(Lenient, output)
    ensures BackendValid(Lenient) && !ReadableEntry(output)
  {
    hide ReadableEntry;
    LenientIsValid();
    ReadableExactlyWhenPolicyIsKnown(Lenient, output);
  }

  lemma LenientIsValid()
    ensures BackendValid(Lenient) && !PolicyIsKnown(Lenient)
  {
    assert FieldAllowed(FileType, QueuePolicyName);
    assert Lenient.backend[QueuePolicyName] == Text("sometimes");
    assert !IsPolicyName("sometimes") by { assert |"sometimes"| == 9; }
  }

  const Lenient: LoggerSpec :=
    LoggerSpec("a", FileType, Strategy(None, None), map[QueuePolicyName := Text("sometimes")])

  /** A logger that gives no field gets the configuration its backend has by default. */
  lemma NoFieldsMeansBackendDefaults(logger: LoggerSpec, output: PlannedLogger)
    requires BackendValid(logger) && IsMaterialized(logger, output) && logger.backend == map[]
    ensures ReadableEntry(output)
    ensures logger.backendType.FileType? ==> Described(output) == FileLogger(FILE_CONFIG)
    ensures logger.backendType.UniqueFileType? ==> Described(output) == UniqueFileLogger(UNIQUE_FILE_CONFIG)
    ensures logger.backendType.MemoryType? ==> Described(output) == MemoryLogger(MEMORY_CONFIG)
  {
    hide BackendValid, IsMaterialized, ReadableEntry, Described;
    ReadableExactlyWhenPolicyIsKnown(logger, output);
    SameKind(output);
    if logger.backendType.FileType? {
      DefaultFileSettings(logger, Described(output).file);
    } else if logger.backendType.UniqueFileType? {
      DefaultUniqueFileSettings(logger, Described(output).unique);
    }
  }

  lemma SameKind(output: PlannedLogger)
    requires ReadableEntry(output)
    ensures output.backendType.FileType? <==> Described(output).FileLogger?
    ensures output.backendType.UniqueFileType? <==> Described(output).UniqueFileLogger?
    ensures output.backendType.MemoryType? <==> Described(output).MemoryLogger?
  {
  }

  lemma DefaultFileSettings(logger: LoggerSpec, c: FileConfig)
    requires logger.backendType.FileType? && logger.backend == map[] && FileHas(c, logger)
    ensures c == FILE_CONFIG
  {
  }

  lemma DefaultUniqueFileSettings(logger: LoggerSpec, c: UniqueFileConfig)
    requires logger.backendType.UniqueFileType? && logger.backend == map[] && UniqueFileHas(c, logger)
    ensures c == UNIQUE_FILE_CONFIG
  {
  }

  // ---------------------------------------------------------------- the whole plan

  /** The adapter that the document layer calls accepts exactly the valid backends. */
  lemma AdapterAccepts(logger: LoggerSpec)
    ensures Accepts(BuiltinAdapter, logger) <==> BackendValid(logger)
    ensures IsMaterialized(logger, BuiltinAdapter.materialize(logger).1)
  {
    hide BackendValid, BackendDefects, Codes;
    CompletedIsComplete(logger.backendType, logger.backend);
  }

  /** What `MaterializeConfiguration` returns on success with the built-in adapter. */
  ghost predicate IsPlanOf(document: Document, plan: Plan)
  {
    && ValidDocument(document)
    && plan.schemaVersion == document.schemaVersion
    && |plan.loggers| == |document.loggers|
    && forall k | 0 <= k < |document.loggers| ::
         && BackendValid(document.loggers[k])
         && IsMaterialized(document.loggers[k], plan.loggers[k])
         && plan.loggers[k] == BuiltinAdapter.materialize(document.loggers[k]).1
  }

  method BuildPlan(document: Document, oldPlan: Plan) returns (ok: bool, plan: Plan, diagnostics: Diagnostics)
    ensures ok <==> diagnostics.items == []
    ensures ok ==> IsPlanOf(document, plan)
    ensures !ok ==> plan == oldPlan
    ensures ok <==> ValidDocument(document) && forall k | 0 <= k < |document.loggers| :: BackendValid(document.loggers[k])
  {
    hide BackendValid, IsMaterialized, ValidDocument, Accepts, BuiltinAdapter;
    ok, plan, diagnostics := MaterializeConfiguration(document, BuiltinAdapter, oldPlan);
    forall k | 0 <= k < |document.loggers|
      ensures Accepts(BuiltinAdapter, document.loggers[k]) <==> BackendValid(document.loggers[k])
      ensures IsMaterialized(document.loggers[k], BuiltinAdapter.materialize(document.loggers[k]).1)
    {
      AdapterAccepts(document.loggers[k]);
    }
  }

  /** The ids of a plan are non-empty and distinct. */
  lemma PlanIds(document: Document, plan: Plan, i: nat, j: nat)
    requires IsPlanOf(document, plan) && i < |plan.loggers| && j < |plan.loggers|
    ensures plan.loggers[i].id != "" && (plan.loggers[i].id == plan.loggers[j].id ==> i == j)
  {
    hide BackendValid, Complete;
    assert GoodLogger(document.loggers[i]);
    assert IsMaterialized(document.loggers[i], plan.loggers[i]) && IsMaterialized(document.loggers[j], plan.loggers[j]);
  }

  /** The readers of the factory take every entry of a plan, and what they read has the logger's settings. */
  lemma PlanIsReadable(document: Document, plan: Plan, i: nat)
    requires IsPlanOf(document, plan) && i < |plan.loggers|
    ensures ReadableEntry(plan.loggers[i]) && HasSettings(Described(plan.loggers[i]), document.loggers[i])
  {
    hide BackendValid, IsMaterialized, ReadableEntry, HasSettings, Described;
    var logger := document.loggers[i];
    assert BackendValid(logger) && IsMaterialized(logger, plan.loggers[i]);
    assert GoodLogger(logger);
    ReadableExactlyWhenPolicyIsKnown(logger, plan.loggers[i]);
  }

  // ------------------------------------------------------------- document to loggers

  /** The resolver accepts the entry that a logger is planned as. */
  predicate ResolvesPlanned(resolve: Resolver, logger: LoggerSpec)
  {
    resolve(BuiltinAdapter.materialize(logger).1).0.Clean()
  }

  lemma EntryIsBuilt(document: Document, plan: Plan, resolve: Resolver, k: nat)
    requires IsPlanOf(document, plan) && k < |plan.loggers|
    ensures Builds(resolve, BuiltinFactory, plan.loggers[k])
    ensures Resolves(resolve, plan.loggers[k]) <==> ResolvesPlanned(resolve, document.loggers[k])
    ensures BuiltinFactory(plan.loggers[k], resolve(plan.loggers[k]).1).0 == Some(Described(plan.loggers[k]))
  {
    hide BackendValid, IsMaterialized, ValidDocument, ReadableEntry, Described;
    PlanIsReadable(document, plan, k);
    assert plan.loggers[k] == BuiltinAdapter.materialize(document.loggers[k]).1;
  }

  /**
   From a document to its loggers.  It succeeds exactly for the valid documents with valid backends
   whose entries the resolver accepts; there is then one logger for each logger of the document, in
   order, with that logger's settings; and otherwise nothing is published and a diagnostic says why.
   */
  method Configure(document: Document, resolve: Resolver, oldLoggers: seq<RuntimeLogger>)
    returns (ok: bool, loggers: seq<RuntimeLogger>, diagnostics: Diagnostics)
    ensures ok <==> diagnostics.items == []
    ensures ok <==>
              && ValidDocument(document)
              && (forall k | 0 <= k < |document.loggers| :: BackendValid(document.loggers[k]))
              && (forall k | 0 <= k < |document.loggers| :: ResolvesPlanned(resolve, document.loggers[k]))
    ensures ok ==> |loggers| == |document.loggers|
    ensures ok ==> forall k | 0 <= k < |document.loggers| :: HasSettings(loggers[k], document.loggers[k])
    ensures !ok ==> loggers == oldLoggers
  {
    hide BackendValid, ValidDocument, HasSettings, IsPlanOf, ResolvesPlanned, Builds, Resolves, Described;
    loggers := oldLoggers;
    var plan;
    ok, plan, diagnostics := BuildPlan(document, Plan(0, []));
    if !ok {
      return;
    }
    PlanLength(document, plan);
    forall k | 0 <= k < |document.loggers|
      ensures Builds(resolve, BuiltinFactory, plan.loggers[k])
      ensures Resolves(resolve, plan.loggers[k]) <==> ResolvesPlanned(resolve, document.loggers[k])
      ensures BuiltinFactory(plan.loggers[k], resolve(plan.loggers[k]).1).0 == Some(Described(plan.loggers[k]))
      ensures HasSettings(Described(plan.loggers[k]), document.loggers[k])
    {
      EntryIsBuilt(document, plan, resolve, k);
      PlanIsReadable(document, plan, k);
    }
    ok, loggers, diagnostics := InstantiateConfiguration(plan, resolve, BuiltinFactory, oldLoggers);
  }

  lemma PlanLength(document: Document, plan: Plan)
    requires IsPlanOf(document, plan)
    ensures |plan.loggers| == |document.loggers|
    ensures forall k | 0 <= k < |plan.loggers| :: ReadableEntry(plan.loggers[k])
  {
    hide BackendValid, ValidDocument, IsMaterialized, ReadableEntry;
    forall k | 0 <= k < |plan.loggers| ensures ReadableEntry(plan.loggers[k]) { PlanIsReadable(document, plan, k); }
  }

  /** The conversions keep a setting exactly when it fits; nothing earlier checks that it does. */
  lemma ConversionsAreExactInRange(days: Int64, files: UInt64)
    ensures ToInt32(days) == days <==> -0x8000_0000 <= days < 0x8000_0000
    ensures ToUInt32(files) == files <==> files < TWO_32
    ensures ToInt32(0x1_0000_0000) == 0 && ToUInt32(0x1_0000_0000) == 0
  {
  }
}
