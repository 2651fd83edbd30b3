/**
 The adapter for the built-in backends of a plain build: file, unique file and memory.  It checks
 a logger's fields against the schema of its backend and completes them with the defaults.
 */
module ConfigurationBuiltins {
  import opened ConfigurationModel
  import opened ConfigurationDocument
  import opened Options

  // ------------------------------------------------------------------ the schema

  datatype Kind = BooleanKind | SignedKind | UnsignedKind | TextKind

  predicate IsKind(v: Value, kind: Kind)
  {
    match kind
    case BooleanKind => v.Boolean?
    case SignedKind => v.Signed?
    case UnsignedKind => v.Unsigned?
    case TextKind => v.Text?
  }

  predicate TypeIs(backend: FieldMap, name: FieldName, kind: Kind)
  {
    name in backend ==> IsKind(backend[name], kind)
  }

  predicate NamedIn(backend: FieldMap, name: FieldName, names: set<string>)
  {
    name in backend ==> backend[name].Text? && backend[name].text in names
  }

  predicate HasAdapter(t: BackendType)
  {
    t.FileType? || t.UniqueFileType? || t.MemoryType?
  }

  function FileDefault(f: FieldName): Option<Value>
  {
    match f
    case Directory => Some(Text("logs"))
    case Async => Some(Boolean(true))
    case AutoDeleteDays => Some(Signed(30))
    case MaxFileSizeBytes => Some(Unsigned(0))
    case MaxRotatedFiles => Some(Unsigned(0))
    case Compress => Some(Text("none"))
    case CompressLevel => Some(Signed(1))
    case CompressAsync => Some(Boolean(true))
    case ExternalCmd => Some(Text(""))
    case Naming => Some(Text("sequence"))
    case SeqWidth => Some(Unsigned(3))
    case UseDedicatedExecutor => Some(Boolean(false))
    case QueueCapacity => Some(Unsigned(0))
    case QueuePolicyName => Some(Text("block"))
    case _ => None
  }

  function UniqueFileDefault(f: FieldName): Option<Value>
  {
    match f
    case Directory => Some(Text("unique_logs"))
    case Async => Some(Boolean(true))
    case AutoDeleteDays => Some(Signed(30))
    case HashLength => Some(Unsigned(8))
    case UseDedicatedExecutor => Some(Boolean(false))
    case QueueCapacity => Some(Unsigned(0))
    case QueuePolicyName => Some(Text("block"))
    case _ => None
  }

  function MemoryDefault(f: FieldName): Option<Value>
  {
    match f
    case MaxRecords => Some(Unsigned(1000))
    case MaxBytes => Some(Unsigned(1024 * 1024))
    case MaxAgeMs => Some(Signed(24 * 60 * 60 * 1000))
    case _ => None
  }

  /** The default of a setting, for the settings that a backend has. */
  function Default(t: BackendType, f: FieldName): Option<Value>
  {
    match t
    case FileType => FileDefault(f)
    case UniqueFileType => UniqueFileDefault(f)
    case MemoryType => MemoryDefault(f)
    case _ => None
  }

  predicate FieldAllowed(t: BackendType, f: FieldName)
  {
    match t
    case FileType =>
      || f.Directory? || f.Async? || f.AutoDeleteDays? || f.MaxFileSizeBytes? || f.MaxRotatedFiles?
      || f.Compress? || f.CompressLevel? || f.CompressAsync? || f.ExternalCmd? || f.Naming? || f.SeqWidth?
      || f.UseDedicatedExecutor? || f.QueueCapacity? || f.QueuePolicyName?
    case UniqueFileType =>
      || f.Directory? || f.Async? || f.AutoDeleteDays? || f.HashLength?
      || f.UseDedicatedExecutor? || f.QueueCapacity? || f.QueuePolicyName?
    case MemoryType => f.MaxRecords? || f.MaxBytes? || f.MaxAgeMs?
    case _ => false
  }

  const COMPRESSIONS := {"none", "gzip", "zstd", "external_cmd"}

  const NAMINGS := {"sequence", "timestamp", "timestamp_ms"}

  /** The type of a setting. */
  function KindOf(f: FieldName): Kind
  {
    match f
    case Async => BooleanKind
    case CompressAsync => BooleanKind
    case UseDedicatedExecutor => BooleanKind
    case AutoDeleteDays => SignedKind
    case CompressLevel => SignedKind
    case MaxAgeMs => SignedKind
    case MaxFileSizeBytes => UnsignedKind
    case MaxRotatedFiles => UnsignedKind
    case SeqWidth => UnsignedKind
    case QueueCapacity => UnsignedKind
    case HashLength => UnsignedKind
    case MaxRecords => UnsignedKind
    case MaxBytes => UnsignedKind
    case _ => TextKind
  }

  /** A value of the setting's type, with a known name where names are listed. */
  predicate Suits(f: FieldName, v: Value)
  {
    && IsKind(v, KindOf(f))
    && (f.Compress? ==> v.text in COMPRESSIONS)
    && (f.Naming? ==> v.text in NAMINGS)
  }

  /** Every field given is a setting of the backend, with a value that suits it. */
  predicate BackendValid(logger: LoggerSpec)
  {
    && HasAdapter(logger.backendType)
    && forall f | f in logger.backend :: FieldAllowed(logger.backendType, f) && Suits(f, logger.backend[f])
  }

  /** A backend has a default for each setting it allows and for no other, and every default suits. */
  lemma DefaultsSuit(t: BackendType, f: FieldName)
    ensures FieldAllowed(t, f) <==> Default(t, f).Some?
    ensures Default(t, f).Some? ==> Suits(f, Default(t, f).value)
  {
  }

  // ------------------------------------------------------------------ validation

  /** Diagnostics are only added, some are exactly on failure, and those are of one category. */
  predicate Reports(before: seq<Diagnostic>, after: seq<Diagnostic>, valid: bool, code: ErrorCode)
  {
    && before <= after && (after == before <==> valid)
    && Codes(after) == Codes(before) + When(!valid, code)
  }

  /** The same for checks of values. */
  predicate Extends(before: seq<Diagnostic>, after: seq<Diagnostic>, valid: bool)
  {
    Reports(before, after, valid, InvalidValue)
  }

  /** Checks one field's type and adds the outcome to the verdict so far. */
  method ValidateType(
    backend: FieldMap, name: FieldName, kind: Kind, valid: bool, ghost start: seq<Diagnostic>, diagnostics: Diagnostics)
    returns (valid': bool)
    requires Extends(start, diagnostics.items, valid)
    modifies diagnostics
    ensures valid' <==> TypeIs(backend, name, kind) && valid
    ensures Extends(start, diagnostics.items, valid')
  {
    hide Spelling, Codes;
    valid' := valid;
    if !TypeIs(backend, name, kind) {
      diagnostics.Add(InvalidValue, "backend." + Spelling(name));
      valid' := false;
    }
  }

  /** The same for a field whose values are listed by name. */
  method ValidateEnum(
    backend: FieldMap, name: FieldName, names: set<string>, valid: bool, ghost start: seq<Diagnostic>, diagnostics: Diagnostics)
    returns (valid': bool)
    requires Extends(start, diagnostics.items, valid)
    modifies diagnostics
    ensures valid' <==> NamedIn(backend, name, names) && valid
    ensures Extends(start, diagnostics.items, valid')
  {
    hide Spelling, Codes;
    valid' := valid;
    if !NamedIn(backend, name, names) {
      diagnostics.Add(InvalidValue, "backend." + Spelling(name));
      valid' := false;
    }
  }

  /** The loop over the fields given, in any order. */
  method ValidateNames(t: BackendType, backend: FieldMap, diagnostics: Diagnostics) returns (valid: bool)
    modifies diagnostics
    ensures valid <==> NamesAllowed(t, backend)
    ensures Reports(old(diagnostics.items), diagnostics.items, valid, UnknownField)
  {
    hide Spelling, FieldAllowed, Codes;
    valid := true;
    var rest := backend.Keys;
    while rest != {}
      invariant rest <= backend.Keys
      invariant valid <==> forall f | f in backend.Keys - rest :: FieldAllowed(t, f)
      invariant Reports(old(diagnostics.items), diagnostics.items, valid, UnknownField)
      decreases |rest|
    {
      var f :| f in rest;
      if !FieldAllowed(t, f) {
        diagnostics.Add(UnknownField, "backend." + Spelling(f));
        valid := false;
      }
      rest := rest - {f};
    }
  }

  predicate CommonTypes(backend: FieldMap)
  {
    && TypeIs(backend, Async, BooleanKind)
    && TypeIs(backend, UseDedicatedExecutor, BooleanKind)
    && TypeIs(backend, QueueCapacity, UnsignedKind)
    && TypeIs(backend, QueuePolicyName, TextKind)
  }

  predicate FileTypes(t: BackendType, backend: FieldMap)
  {
    && TypeIs(backend, Directory, TextKind)
    && TypeIs(backend, AutoDeleteDays, SignedKind)
    && TypeIs(backend, MaxFileSizeBytes, UnsignedKind)
    && TypeIs(backend, MaxRotatedFiles, UnsignedKind)
    && TypeIs(backend, Compress, TextKind)
    && TypeIs(backend, CompressLevel, SignedKind)
    && TypeIs(backend, CompressAsync, BooleanKind)
    && TypeIs(backend, ExternalCmd, TextKind)
    && TypeIs(backend, Naming, TextKind)
    && TypeIs(backend, SeqWidth, UnsignedKind)
    && NamedIn(backend, Compress, COMPRESSIONS)
    && NamedIn(backend, Naming, NAMINGS)
    && (t.UniqueFileType? ==> TypeIs(backend, HashLength, UnsignedKind))
  }

  predicate MemoryTypes(backend: FieldMap)
  {
    && TypeIs(backend, MaxRecords, UnsignedKind)
    && TypeIs(backend, MaxBytes, UnsignedKind)
    && TypeIs(backend, MaxAgeMs, SignedKind)
  }

  method ValidateCommonTypes(backend: FieldMap, valid: bool, ghost start: seq<Diagnostic>, diagnostics: Diagnostics)
    returns (valid': bool)
    requires Extends(start, diagnostics.items, valid)
    modifies diagnostics
    ensures valid' <==> CommonTypes(backend) && valid
    ensures Extends(start, diagnostics.items, valid')
  {
    hide TypeIs, Extends;
    valid' := valid;
    valid' := ValidateType(backend, Async, BooleanKind, valid', start, diagnostics);
    valid' := ValidateType(backend, UseDedicatedExecutor, BooleanKind, valid', start, diagnostics);
    valid' := ValidateType(backend, QueueCapacity, UnsignedKind, valid', start, diagnostics);
    valid' := ValidateType(backend, QueuePolicyName, TextKind, valid', start, diagnostics);
  }

  method ValidateFileTypes(t: BackendType, backend: FieldMap, valid: bool, ghost start: seq<Diagnostic>, diagnostics: Diagnostics)
    returns (valid': bool)
    requires Extends(start, diagnostics.items, valid)
    modifies diagnostics
    ensures valid' <==> FileTypes(t, backend) && valid
    ensures Extends(start, diagnostics.items, valid')
  {
    hide TypeIs, NamedIn, Extends;
    valid' := valid;
    valid' := ValidateType(backend, Directory, TextKind, valid', start, diagnostics);
    valid' := ValidateType(backend, AutoDeleteDays, SignedKind, valid', start, diagnostics);
    valid' := ValidateType(backend, MaxFileSizeBytes, UnsignedKind, valid', start, diagnostics);
    valid' := ValidateType(backend, MaxRotatedFiles, UnsignedKind, valid', start, diagnostics);
    valid' := ValidateType(backend, Compress, TextKind, valid', start, diagnostics);
    valid' := ValidateType(backend, CompressLevel, SignedKind, valid', start, diagnostics);
    valid' := ValidateType(backend, CompressAsync, BooleanKind, valid', start, diagnostics);
    valid' := ValidateType(backend, ExternalCmd, TextKind, valid', start, diagnostics);
    valid' := ValidateType(backend, Naming, TextKind, valid', start, diagnostics);
    valid' := ValidateType(backend, SeqWidth, UnsignedKind, valid', start, diagnostics);
    valid' := ValidateEnum(backend, Compress, COMPRESSIONS, valid', start, diagnostics);
    valid' := ValidateEnum(backend, Naming, NAMINGS, valid', start, diagnostics);
    if t.UniqueFileType? {
      valid' := ValidateType(backend, HashLength, UnsignedKind, valid', start, diagnostics);
    }
  }

  method ValidateMemoryTypes(backend: FieldMap, valid: bool, ghost start: seq<Diagnostic>, diagnostics: Diagnostics)
    returns (valid': bool)
    requires Extends(start, diagnostics.items, valid)
    modifies diagnostics
    ensures valid' <==> MemoryTypes(backend) && valid
    ensures Extends(start, diagnostics.items, valid')
  {
    hide TypeIs, Extends;
    valid' := valid;
    valid' := ValidateType(backend, MaxRecords, UnsignedKind, valid', start, diagnostics);
    valid' := ValidateType(backend, MaxBytes, UnsignedKind, valid', start, diagnostics);
    valid' := ValidateType(backend, MaxAgeMs, SignedKind, valid', start, diagnostics);
  }

  predicate NamesAllowed(t: BackendType, backend: FieldMap)
  {
    forall f | f in backend :: FieldAllowed(t, f)
  }

  /** Every value given has the type, and the name, that the checks of its backend ask for. */
  predicate ValuesSuit(t: BackendType, backend: FieldMap)
  {
    CommonTypes(backend) && if t.MemoryType? then MemoryTypes(backend) else FileTypes(t, backend)
  }

  /** The chain of checks accepts exactly the loggers whose every field suits its setting. */
  lemma ChecksAreTheSchema(logger: LoggerSpec)
    requires HasAdapter(logger.backendType)
    ensures BackendValid(logger) <==>
              NamesAllowed(logger.backendType, logger.backend) && ValuesSuit(logger.backendType, logger.backend)
  {
    if BackendValid(logger) {
      SchemaPassesChecks(logger);
    } else if NamesAllowed(logger.backendType, logger.backend) {
      var f :| f in logger.backend && !Suits(f, logger.backend[f]);
      UnsuitedFailsChecks(logger, f);
    }
  }

  lemma SchemaPassesChecks(logger: LoggerSpec)
    requires BackendValid(logger)
    ensures CommonTypes(logger.backend) && MemoryTypes(logger.backend) && FileTypes(logger.backendType, logger.backend)
  {
    hide FieldAllowed, FileTypes;
    SchemaPassesFileTypes(logger);
  }

  lemma SchemaPassesFileTypes(logger: LoggerSpec)
    requires BackendValid(logger)
    ensures FileTypes(logger.backendType, logger.backend)
  {
    hide FieldAllowed;
  }

  lemma UnsuitedFailsChecks(logger: LoggerSpec, f: FieldName)
    requires HasAdapter(logger.backendType) && f in logger.backend
    requires FieldAllowed(logger.backendType, f) && !Suits(f, logger.backend[f])
    ensures !CommonTypes(logger.backend) ||
            (if logger.backendType.MemoryType? then !MemoryTypes(logger.backend)
             else !FileTypes(logger.backendType, logger.backend))
  {
  }

  /** The categories under which a logger's backend is refused. */
  function BackendDefects(logger: LoggerSpec): set<ErrorCode>
  {
    if !KnownBackend(logger.backendType) then {UnknownBackendType}
    else if !HasAdapter(logger.backendType) then {UnavailableBackend}
    else
      When(!NamesAllowed(logger.backendType, logger.backend), UnknownField)
      + When(!ValuesSuit(logger.backendType, logger.backend), InvalidValue)
  }

  lemma ValidMeansNoBackendDefect(logger: LoggerSpec)
    ensures BackendValid(logger) <==> BackendDefects(logger) == {}
  {
    hide NamesAllowed, ValuesSuit;
    if HasAdapter(logger.backendType) {
      ChecksAreTheSchema(logger);
      assert !NamesAllowed(logger.backendType, logger.backend) ==> UnknownField in BackendDefects(logger);
      assert !ValuesSuit(logger.backendType, logger.backend) ==> InvalidValue in BackendDefects(logger);
    } else {
      assert BackendDefects(logger) == {UnknownBackendType} || BackendDefects(logger) == {UnavailableBackend};
    }
  }

  /** It succeeds exactly for the valid backends, and reports exactly the categories of their defects. */
  method ValidateBackend(logger: LoggerSpec, diagnostics: Diagnostics) returns (valid: bool)
    modifies diagnostics
    ensures valid <==> BackendValid(logger)
    ensures old(diagnostics.items) <= diagnostics.items
    ensures diagnostics.items == old(diagnostics.items) <==> valid
    ensures Codes(diagnostics.items) == Codes(old(diagnostics.items)) + BackendDefects(logger)
  {
    hide NamesAllowed, CommonTypes, FileTypes, MemoryTypes, Codes;
    if !KnownBackend(logger.backendType) {
      diagnostics.Add(UnknownBackendType, "type");
      return false;
    }
    if logger.backendType.Optional? || !HasAdapter(logger.backendType) {
      diagnostics.Add(UnavailableBackend, "type");
      return false;
    }
    ChecksAreTheSchema(logger);
    var names := ValidateNames(logger.backendType, logger.backend, diagnostics);
    ghost var start := diagnostics.items;
    valid := ValidateCommonTypes(logger.backend, true, start, diagnostics);
    if logger.backendType.MemoryType? {
      valid := ValidateMemoryTypes(logger.backend, valid, start, diagnostics);
    } else {
      valid := ValidateFileTypes(logger.backendType, logger.backend, valid, start, diagnostics);
    }
    valid := valid && names;
  }

  // -------------------------------------------------------------------- defaults

  /** The given fields stand, and the backend's defaults fill the rest. */
  ghost predicate Complete(t: BackendType, given: FieldMap, fields: FieldMap)
  {
    forall f ::
      && (f in fields <==> f in given || Default(t, f).Some?)
      && (f in fields ==> fields[f] == if f in given then given[f] else Default(t, f).value)
  }

  /** The same once only the settings in `done` have been filled. */
  ghost predicate Progress(t: BackendType, given: FieldMap, fields: FieldMap, done: set<FieldName>)
  {
    && (forall f | f in done :: Default(t, f).Some?)
    && (forall f ::
          && (f in fields <==> f in given || f in done)
          && (f in fields ==> fields[f] == if f in given then given[f] else Default(t, f).value))
  }

  lemma NoneSet(t: BackendType, given: FieldMap)
    ensures Progress(t, given, given, {})
  {
  }

  lemma AllSet(t: BackendType, given: FieldMap, fields: FieldMap, done: set<FieldName>)
    requires Progress(t, given, fields, done)
    requires forall f | Default(t, f).Some? :: f in done
    ensures Complete(t, given, fields)
  {
  }

  method SetDefault(
    t: BackendType, fields: FieldMap, name: FieldName, value: Value, ghost given: FieldMap, ghost done: set<FieldName>)
    returns (fields': FieldMap, ghost done': set<FieldName>)
    requires Progress(t, given, fields, done) && Default(t, name) == Some(value)
    ensures done' == done + {name} && Progress(t, given, fields', done')
  {
    hide Default;
    fields', done' := fields, done + {name};
    if name !in fields {
      fields' := fields[name := value];
    }
  }

  method ApplyFileDefaults(given: FieldMap) returns (fields: FieldMap)
    ensures Complete(FileType, given, fields)
  {
    hide Progress;
    NoneSet(FileType, given);
    ghost var done: set<FieldName>;
    fields, done := ApplyFileDefaultsToCompression(given, given, {});
    fields, done := ApplyFileDefaultsFromCompression(fields, given, done);
    AllSet(FileType, given, fields, done);
  }

  method ApplyFileDefaultsToCompression(start: FieldMap, ghost given: FieldMap, ghost was: set<FieldName>)
    returns (fields: FieldMap, ghost done: set<FieldName>)
    requires Progress(FileType, given, start, was)
    ensures Progress(FileType, given, fields, done)
    ensures done == was + {Directory, Async, AutoDeleteDays, MaxFileSizeBytes, MaxRotatedFiles, Compress, CompressLevel}
  {
    hide Progress;
    var t := FileType;
    fields, done := start, was;
    fields, done := SetDefault(t, fields, Directory, Text("logs"), given, done);
    fields, done := SetDefault(t, fields, Async, Boolean(true), given, done);
    fields, done := SetDefault(t, fields, AutoDeleteDays, Signed(30), given, done);
    fields, done := SetDefault(t, fields, MaxFileSizeBytes, Unsigned(0), given, done);
    fields, done := SetDefault(t, fields, MaxRotatedFiles, Unsigned(0), given, done);
    fields, done := SetDefault(t, fields, Compress, Text("none"), given, done);
    fields, done := SetDefault(t, fields, CompressLevel, Signed(1), given, done);
  }

  method ApplyFileDefaultsFromCompression(start: FieldMap, ghost given: FieldMap, ghost was: set<FieldName>)
    returns (fields: FieldMap, ghost done: set<FieldName>)
    requires Progress(FileType, given, start, was)
    ensures Progress(FileType, given, fields, done)
    ensures done == was + {CompressAsync, ExternalCmd, Naming, SeqWidth, UseDedicatedExecutor, QueueCapacity, QueuePolicyName}
  {
    hide Progress;
    var t := FileType;
    fields, done := start, was;
    fields, done := SetDefault(t, fields, CompressAsync, Boolean(true), given, done);
    fields, done := SetDefault(t, fields, ExternalCmd, Text(""), given, done);
    fields, done := SetDefault(t, fields, Naming, Text("sequence"), given, done);
    fields, done := SetDefault(t, fields, SeqWidth, Unsigned(3), given, done);
    fields, done := SetDefault(t, fields, UseDedicatedExecutor, Boolean(false), given, done);
    fields, done := SetDefault(t, fields, QueueCapacity, Unsigned(0), given, done);
    fields, done := SetDefault(t, fields, QueuePolicyName, Text("block"), given, done);
  }

  method ApplyUniqueFileDefaults(given: FieldMap) returns (fields: FieldMap)
    ensures Complete(UniqueFileType, given, fields)
  {
    hide Progress;
    var t := UniqueFileType;
    ghost var done: set<FieldName> := {};
    fields := given;
    NoneSet(t, given);
    fields, done := SetDefault(t, fields, Directory, Text("unique_logs"), given, done);
    fields, done := SetDefault(t, fields, Async, Boolean(true), given, done);
    fields, done := SetDefault(t, fields, AutoDeleteDays, Signed(30), given, done);
    fields, done := SetDefault(t, fields, HashLength, Unsigned(8), given, done);
    fields, done := SetDefault(t, fields, UseDedicatedExecutor, Boolean(false), given, done);
    fields, done := SetDefault(t, fields, QueueCapacity, Unsigned(0), given, done);
    fields, done := SetDefault(t, fields, QueuePolicyName, Text("block"), given, done);
    AllSet(t, given, fields, done);
  }

  method ApplyMemoryDefaults(given: FieldMap) returns (fields: FieldMap)
    ensures Complete(MemoryType, given, fields)
  {
    hide Progress;
    var t := MemoryType;
    ghost var done: set<FieldName> := {};
    fields := given;
    NoneSet(t, given);
    fields, done := SetDefault(t, fields, MaxRecords, Unsigned(1000), given, done);
    fields, done := SetDefault(t, fields, MaxBytes, Unsigned(1024 * 1024), given, done);
    fields, done := SetDefault(t, fields, MaxAgeMs, Signed(24 * 60 * 60 * 1000), given, done);
    AllSet(t, given, fields, done);
  }

  method ApplyDefaults(t: BackendType, given: FieldMap) returns (fields: FieldMap)
    ensures Complete(t, given, fields)
  {
    hide FileDefault, UniqueFileDefault, MemoryDefault;
    fields := given;
    match t
    case FileType => fields := ApplyFileDefaults(given);
    case UniqueFileType => fields := ApplyUniqueFileDefaults(given);
    case MemoryType => fields := ApplyMemoryDefaults(given);
    case _ =>
  }

  /** The defaults of a nested object; a field of another type is left as it is. */
  method MergeObjectDefaults(fields: FieldMap, name: FieldName, defaults: map<string, Value>) returns (fields': FieldMap)
    ensures fields' == fields[name := if name !in fields then Object(defaults)
                                      else if fields[name].Object? then Object(defaults + fields[name].fields)
                                      else fields[name]]
  {
    if name !in fields {
      return fields[name := Object(defaults)];
    }
    if !fields[name].Object? {
      return fields;
    }
    var observed := FillObject(fields[name].fields, defaults);
    return fields[name := Object(observed)];
  }

  /** The loop over the defaults, in any order. */
  method FillObject(given: map<string, Value>, defaults: map<string, Value>) returns (observed: map<string, Value>)
    ensures observed == defaults + given
  {
    observed := given;
    var rest := defaults.Keys;
    while rest != {}
      invariant rest <= defaults.Keys
      invariant observed.Keys == given.Keys + (defaults.Keys - rest)
      invariant forall k | k in observed :: observed[k] == if k in given then given[k] else defaults[k]
      decreases |rest|
    {
      var key :| key in rest;
      if key !in observed {
        observed := observed[key := defaults[key]];
      }
      rest := rest - {key};
    }
  }

  // ------------------------------------------------------- the adapter as a value

  const SETTINGS: set<FieldName> := {
    Directory, Async, AutoDeleteDays, MaxFileSizeBytes, MaxRotatedFiles, Compress, CompressLevel, CompressAsync,
    ExternalCmd, Naming, SeqWidth, UseDedicatedExecutor, QueueCapacity, QueuePolicyName,
    HashLength, MaxRecords, MaxBytes, MaxAgeMs}

  /** The fields of a logger with the defaults filled in. */
  function Completed(t: BackendType, given: FieldMap): FieldMap
  {
    map f | f in given.Keys + SETTINGS && (f in given || Default(t, f).Some?)
      :: if f in given then given[f] else Default(t, f).value
  }

  lemma CompletedIsComplete(t: BackendType, given: FieldMap)
    ensures Complete(t, given, Completed(t, given))
  {
    assert forall f :: Default(t, f).Some? ==> f in SETTINGS;
  }

  /**
   Validation refuses queue settings exactly when the completed logger would not hand its messages to an
   executor of its own: when that executor is off, given or by default, or the logger is synchronous.
   */
  lemma QueueNeedsTheExecutor(t: BackendType, given: FieldMap)
    requires (t.FileType? || t.UniqueFileType?) && WellTypedExecutorFields(given)
    ensures UseDedicatedExecutor in Completed(t, given) && Async in Completed(t, given)
    ensures UnsupportedCombination in ExecutorDefects(given) <==>
              && (QueueCapacity in given || QueuePolicyName in given)
              && !(Completed(t, given)[UseDedicatedExecutor] == Boolean(true) && Completed(t, given)[Async] == Boolean(true))
  {
    hide Completed, IsPolicyName;
    CompletedIsComplete(t, given);
  }

  lemma CompleteIsUnique(t: BackendType, given: FieldMap, a: FieldMap, b: FieldMap)
    requires Complete(t, given, a) && Complete(t, given, b)
    ensures a == b
  {
    hide Default;
    assert forall f :: f in a <==> f in b;
  }

  /** The verdict on a backend, with one diagnostic for each category of defect. */
  function Decision(logger: LoggerSpec): (v: Verdict)
    ensures v.Clean() <==> BackendValid(logger)
    ensures Codes(v.diagnostics) == BackendDefects(logger)
  {
    var defects := BackendDefects(logger);
    var diagnostics :=
      OneOf(UnknownBackendType, defects) + OneOf(UnavailableBackend, defects)
      + OneOf(UnknownField, defects) + OneOf(InvalidValue, defects);
    ValidMeansNoBackendDefect(logger);
    NoCodes(diagnostics);
    CodesOfDecision(logger, diagnostics);
    Verdict(BackendValid(logger), diagnostics)
  }

  function OneOf(code: ErrorCode, defects: set<ErrorCode>): seq<Diagnostic>
  {
    if code in defects then [Diagnostic(code, "backend")] else []
  }

  lemma CodesOfConcat(a: seq<Diagnostic>, b: seq<Diagnostic>)
    ensures Codes(a + b) == Codes(a) + Codes(b)
  {
    forall c | c in Codes(a) ensures c in Codes(a + b) {
      var i :| 0 <= i < |a| && a[i].code == c;
      assert (a + b)[i].code == c;
    }
    forall c | c in Codes(b) ensures c in Codes(a + b) {
      var i :| 0 <= i < |b| && b[i].code == c;
      assert (a + b)[|a| + i].code == c;
    }
  }

  lemma CodesOfOne(code: ErrorCode, defects: set<ErrorCode>)
    ensures Codes(OneOf(code, defects)) == When(code in defects, code)
  {
    if code in defects { assert OneOf(code, defects)[0].code in Codes(OneOf(code, defects)); }
  }

  lemma CodesOfDecision(logger: LoggerSpec, diagnostics: seq<Diagnostic>)
    requires var defects := BackendDefects(logger);
             diagnostics == OneOf(UnknownBackendType, defects) + OneOf(UnavailableBackend, defects)
                            + OneOf(UnknownField, defects) + OneOf(InvalidValue, defects)
    ensures Codes(diagnostics) == BackendDefects(logger)
  {
    hide Codes, NamesAllowed, ValuesSuit;
    var defects := BackendDefects(logger);
    var a, b := OneOf(UnknownBackendType, defects), OneOf(UnavailableBackend, defects);
    var c, d := OneOf(UnknownField, defects), OneOf(InvalidValue, defects);
    CodesOfConcat(a, b);
    CodesOfConcat(a + b, c);
    CodesOfConcat(a + b + c, d);
    CodesOfOne(UnknownBackendType, defects);
    CodesOfOne(UnavailableBackend, defects);
    CodesOfOne(UnknownField, defects);
    CodesOfOne(InvalidValue, defects);
  }

  /** The built-in adapter as the two functions that the document layer calls. */
  const BuiltinAdapter: Materializer := Materializer(
    Decision,
    (logger: LoggerSpec) =>
      (Decision(logger),
       PlannedLogger(logger.id, logger.backendType, logger.strategy, Completed(logger.backendType, logger.backend), [])))

  /** What the adapter makes of a logger it accepts. */
  ghost predicate IsMaterialized(logger: LoggerSpec, output: PlannedLogger)
  {
    && output == PlannedLogger(logger.id, logger.backendType, logger.strategy, output.backend, output.requiredBindings)
    && Complete(logger.backendType, logger.backend, output.backend)
  }

  /**
   It succeeds exactly for the valid backends, reports exactly the categories of their defects, and
   from an output not filled in yet it makes what `BuiltinAdapter` returns.
   */
  method MaterializeBackend(logger: LoggerSpec, oldOutput: PlannedLogger, diagnostics: Diagnostics)
    returns (ok: bool, output: PlannedLogger)
    modifies diagnostics
    ensures ok <==> BackendValid(logger)
    ensures old(diagnostics.items) <= diagnostics.items
    ensures diagnostics.items == old(diagnostics.items) <==> ok
    ensures Codes(diagnostics.items) == Codes(old(diagnostics.items)) + Codes(BuiltinAdapter.materialize(logger).0.diagnostics)
    ensures ok ==> IsMaterialized(logger, output) && output.requiredBindings == oldOutput.requiredBindings
    ensures ok && oldOutput.requiredBindings == [] ==> output == BuiltinAdapter.materialize(logger).1
    ensures !ok ==> output == oldOutput
  {
    hide Complete, Codes, BackendDefects, Completed;
    ok := ValidateBackend(logger, diagnostics);
    output := oldOutput;
    if !ok {
      return;
    }
    var fields := ApplyDefaults(logger.backendType, logger.backend);
    CompletedIsComplete(logger.backendType, logger.backend);
    CompleteIsUnique(logger.backendType, logger.backend, fields, Completed(logger.backendType, logger.backend));
    output := output.(id := logger.id, backendType := logger.backendType, strategy := logger.strategy, backend := fields);
  }
}
