/**
 The readers with which the logger factory turns the fields of a plan entry into the settings of
 a backend, with the conversions to the fixed widths of the settings.
 */
module ConfigurationReaders {
  import opened BigEndian
  import opened ConfigurationModel
  import opened ConfigurationDocument
  import opened ConfigurationBuiltins
  import opened ConfigurationRuntime
  import opened QueuePolicies
  import opened Options

  datatype CompressType = NoCompression | Gzip | Zstd | ExternalCommand

  datatype RotationNaming = Sequence | Timestamp | TimestampMs

  datatype FileConfig = FileConfig(
    directory: string, async: bool, autoDeleteDays: int, maxFileSizeBytes: UInt64, maxRotatedFiles: UInt32,
    compress: CompressType, compressLevel: int, compressAsync: bool, externalCmd: string, naming: RotationNaming,
    seqWidth: UInt32, useDedicatedExecutor: bool, queueCapacity: UInt64, queuePolicy: QueuePolicy)

  datatype UniqueFileConfig = UniqueFileConfig(
    directory: string, async: bool, autoDeleteDays: int, hashLength: UInt64,
    useDedicatedExecutor: bool, queueCapacity: UInt64, queuePolicy: QueuePolicy)

  datatype MemoryConfig = MemoryConfig(maxRecords: UInt64, maxBytes: UInt64, maxAgeMs: Int64)

  // ----------------------------------------------------------------- conversions

  /** The 32-bit signed number with the same low bits. */
  function ToInt32(value: Int64): (r: int)
    ensures -0x8000_0000 <= r < 0x8000_0000 && (value - r) % TWO_32 == 0
  {
    var low := value % TWO_32;
    if low >= 0x8000_0000 then low - TWO_32 else low
  }

  function ToUInt32(value: UInt64): (r: UInt32)
    ensures (value - r) % TWO_32 == 0
  {
    value % TWO_32
  }

  function CompressionNamed(s: string): Option<CompressType>
  {
    if s == "none" then Some(NoCompression)
    else if s == "gzip" then Some(Gzip)
    else if s == "zstd" then Some(Zstd)
    else if s == "external_cmd" then Some(ExternalCommand)
    else None
  }

  function NamingNamed(s: string): Option<RotationNaming>
  {
    if s == "sequence" then Some(Sequence)
    else if s == "timestamp" then Some(Timestamp)
    else if s == "timestamp_ms" then Some(TimestampMs)
    else None
  }

  function PolicyNamed(s: string): Option<QueuePolicy>
  {
    if s == "block" then Some(Block)
    else if s == "drop_newest" then Some(DropNewest)
    else if s == "drop_oldest" then Some(DropOldest)
    else None
  }

  /** The texts that name a setting's values, and no others. */
  lemma NamesOfTheValues(s: string)
    ensures PolicyNamed(s) == Some(Block) <==> s == "block"
    ensures PolicyNamed(s) == Some(DropNewest) <==> s == "drop_newest"
    ensures PolicyNamed(s) == Some(DropOldest) <==> s == "drop_oldest"
    ensures NamingNamed(s) == Some(Sequence) <==> s == "sequence"
    ensures NamingNamed(s) == Some(Timestamp) <==> s == "timestamp"
    ensures NamingNamed(s) == Some(TimestampMs) <==> s == "timestamp_ms"
    ensures CompressionNamed(s) == Some(NoCompression) <==> s == "none"
    ensures CompressionNamed(s) == Some(Gzip) <==> s == "gzip"
    ensures CompressionNamed(s) == Some(Zstd) <==> s == "zstd"
    ensures CompressionNamed(s) == Some(ExternalCommand) <==> s == "external_cmd"
  {
  }

  /** What validation accepts by name is exactly what the readers know. */
  lemma ValidNamesAreReadable(s: string)
    ensures IsPolicyName(s) <==> PolicyNamed(s).Some?
    ensures s in COMPRESSIONS <==> CompressionNamed(s).Some?
    ensures s in NAMINGS <==> NamingNamed(s).Some?
  {
  }

  // ------------------------------------------------------------------ one field

  /** Unlike validation, reading demands that the field be there. */
  predicate Readable(backend: FieldMap, name: FieldName)
  {
    name in backend && IsKind(backend[name], KindOf(name))
  }

  method ReadText(
    backend: FieldMap, name: FieldName, value: string, valid: bool, ghost start: seq<Diagnostic>, diagnostics: Diagnostics)
    returns (value': string, valid': bool)
    requires KindOf(name).TextKind? && Extends(start, diagnostics.items, valid)
    modifies diagnostics
    ensures Extends(start, diagnostics.items, valid') && (valid' <==> Readable(backend, name) && valid)
    ensures value' == if Readable(backend, name) then backend[name].text else value
  {
    hide Spelling, Codes;
    value', valid' := value, valid;
    if name !in backend || !backend[name].Text? {
      diagnostics.Add(InvalidValue, "backend." + Spelling(name));
      valid' := false;
    } else {
      value' := backend[name].text;
    }
  }

  method ReadBool(
    backend: FieldMap, name: FieldName, value: bool, valid: bool, ghost start: seq<Diagnostic>, diagnostics: Diagnostics)
    returns (value': bool, valid': bool)
    requires KindOf(name).BooleanKind? && Extends(start, diagnostics.items, valid)
    modifies diagnostics
    ensures Extends(start, diagnostics.items, valid') && (valid' <==> Readable(backend, name) && valid)
    ensures value' == if Readable(backend, name) then backend[name].boolean else value
  {
    hide Spelling, Codes;
    value', valid' := value, valid;
    if name !in backend || !backend[name].Boolean? {
      diagnostics.Add(InvalidValue, "backend." + Spelling(name));
      valid' := false;
    } else {
      value' := backend[name].boolean;
    }
  }

  method ReadUnsigned(
    backend: FieldMap, name: FieldName, value: UInt64, valid: bool, ghost start: seq<Diagnostic>, diagnostics: Diagnostics)
    returns (value': UInt64, valid': bool)
    requires KindOf(name).UnsignedKind? && Extends(start, diagnostics.items, valid)
    modifies diagnostics
    ensures Extends(start, diagnostics.items, valid') && (valid' <==> Readable(backend, name) && valid)
    ensures value' == if Readable(backend, name) then backend[name].unsigned else value
  {
    hide Spelling, Codes;
    value', valid' := value, valid;
    if name !in backend || !backend[name].Unsigned? {
      diagnostics.Add(InvalidValue, "backend." + Spelling(name));
      valid' := false;
    } else {
      value' := backend[name].unsigned;
    }
  }

  method ReadSigned(
    backend: FieldMap, name: FieldName, value: Int64, valid: bool, ghost start: seq<Diagnostic>, diagnostics: Diagnostics)
    returns (value': Int64, valid': bool)
    requires KindOf(name).SignedKind? && Extends(start, diagnostics.items, valid)
    modifies diagnostics
    ensures Extends(start, diagnostics.items, valid') && (valid' <==> Readable(backend, name) && valid)
    ensures value' == if Readable(backend, name) then backend[name].signed else value
  {
    hide Spelling, Codes;
    value', valid' := value, valid;
    if name !in backend || !backend[name].Signed? {
      diagnostics.Add(InvalidValue, "backend." + Spelling(name));
      valid' := false;
    } else {
      value' := backend[name].signed;
    }
  }

  /** A signed field for a setting of 32 bits. */
  method ReadInt32(
    backend: FieldMap, name: FieldName, value: int, valid: bool, ghost start: seq<Diagnostic>, diagnostics: Diagnostics)
    returns (value': int, valid': bool)
    requires KindOf(name).SignedKind? && Extends(start, diagnostics.items, valid)
    modifies diagnostics
    ensures Extends(start, diagnostics.items, valid') && (valid' <==> Readable(backend, name) && valid)
    ensures value' == if Readable(backend, name) then ToInt32(backend[name].signed) else value
  {
    hide Extends, ToInt32;
    value' := value;
    var wide;
    wide, valid' := ReadSigned(backend, name, 0, valid, start, diagnostics);
    if Readable(backend, name) {
      value' := ToInt32(wide);
    }
  }

  /** An unsigned field for a setting of 32 bits. */
  method ReadUInt32(
    backend: FieldMap, name: FieldName, value: UInt32, valid: bool, ghost start: seq<Diagnostic>, diagnostics: Diagnostics)
    returns (value': UInt32, valid': bool)
    requires KindOf(name).UnsignedKind? && Extends(start, diagnostics.items, valid)
    modifies diagnostics
    ensures Extends(start, diagnostics.items, valid') && (valid' <==> Readable(backend, name) && valid)
    ensures value' == if Readable(backend, name) then ToUInt32(backend[name].unsigned) else value
  {
    hide Extends, ToUInt32;
    value' := value;
    var wide;
    wide, valid' := ReadUnsigned(backend, name, 0, valid, start, diagnostics);
    if Readable(backend, name) {
      value' := ToUInt32(wide);
    }
  }

  /** A field whose text must be one of the names that `parse` knows. */
  method ReadNamed<T>(
    backend: FieldMap, name: FieldName, parse: string -> Option<T>, value: T, valid: bool,
    ghost start: seq<Diagnostic>, diagnostics: Diagnostics)
    returns (value': T, valid': bool)
    requires KindOf(name).TextKind? && Extends(start, diagnostics.items, valid)
    modifies diagnostics
    ensures Extends(start, diagnostics.items, valid')
    ensures valid' <==> NamedReadable(backend, name, parse) && valid
    ensures value' == if NamedReadable(backend, name, parse) then parse(backend[name].text).value else value
  {
    hide Spelling, Codes;
    value' := value;
    var text: string;
    text, valid' := ReadText(backend, name, "", valid, start, diagnostics);
    if Readable(backend, name) {
      if parse(text).None? {
        diagnostics.Add(InvalidValue, "backend." + Spelling(name));
        valid' := false;
      } else {
        value' := parse(text).value;
      }
    }
  }

  predicate NamedReadable<T>(backend: FieldMap, name: FieldName, parse: string -> Option<T>)
    requires KindOf(name).TextKind?
  {
    Readable(backend, name) && parse(backend[name].text).Some?
  }

  lemma NothingRead(items: seq<Diagnostic>)
    ensures Extends(items, items, true)
  {
    assert Codes(items) == Codes(items) + {};
  }

  // ------------------------------------------------------------------- memory

  predicate MemoryReadable(backend: FieldMap)
  {
    Readable(backend, MaxRecords) && Readable(backend, MaxBytes) && Readable(backend, MaxAgeMs)
  }

  /** The configuration after reading: each readable field replaces its setting, the others stay. */
  function MemoryRead(backend: FieldMap, c: MemoryConfig): MemoryConfig
  {
    MemoryConfig(
      if Readable(backend, MaxRecords) then backend[MaxRecords].unsigned else c.maxRecords,
      if Readable(backend, MaxBytes) then backend[MaxBytes].unsigned else c.maxBytes,
      if Readable(backend, MaxAgeMs) then backend[MaxAgeMs].signed else c.maxAgeMs)
  }

  method ReadMemoryConfig(backend: FieldMap, initial: MemoryConfig, diagnostics: Diagnostics)
    returns (valid: bool, config: MemoryConfig)
    modifies diagnostics
    ensures Extends(old(diagnostics.items), diagnostics.items, valid) && (valid <==> MemoryReadable(backend))
    ensures config == MemoryRead(backend, initial)
  {
    hide Extends, Readable;
    ghost var start := diagnostics.items;
    NothingRead(start);
    valid := true;
    var records, bytes, age := initial.maxRecords, initial.maxBytes, initial.maxAgeMs;
    records, valid := ReadUnsigned(backend, MaxRecords, records, valid, start, diagnostics);
    bytes, valid := ReadUnsigned(backend, MaxBytes, bytes, valid, start, diagnostics);
    age, valid := ReadSigned(backend, MaxAgeMs, age, valid, start, diagnostics);
    config := MemoryConfig(records, bytes, age);
  }

  // ------------------------------------------------------------ executor settings

  predicate PolicyReadable(backend: FieldMap)
  {
    NamedReadable(backend, QueuePolicyName, PolicyNamed)
  }

  predicate ExecutorReadable(backend: FieldMap)
  {
    Readable(backend, UseDedicatedExecutor) && Readable(backend, QueueCapacity) && PolicyReadable(backend)
  }

  /** The executor settings after reading; a policy that cannot be read becomes Block, whatever it was. */
  function ExecutorRead(backend: FieldMap, dedicated: bool, capacity: UInt64): (bool, UInt64, QueuePolicy)
  {
    (if Readable(backend, UseDedicatedExecutor) then backend[UseDedicatedExecutor].boolean else dedicated,
     if Readable(backend, QueueCapacity) then backend[QueueCapacity].unsigned else capacity,
     if PolicyReadable(backend) then PolicyNamed(backend[QueuePolicyName].text).value else Block)
  }

  method ReadExecutor(
    backend: FieldMap, dedicated: bool, capacity: UInt64, valid: bool, ghost start: seq<Diagnostic>, diagnostics: Diagnostics)
    returns (executor: (bool, UInt64, QueuePolicy), valid': bool)
    requires Extends(start, diagnostics.items, valid)
    modifies diagnostics
    ensures Extends(start, diagnostics.items, valid') && (valid' <==> ExecutorReadable(backend) && valid)
    ensures executor == ExecutorRead(backend, dedicated, capacity)
  {
    hide Extends, Readable, PolicyNamed, NamedReadable;
    var d, c, p := dedicated, capacity, Block;
    d, valid' := ReadBool(backend, UseDedicatedExecutor, d, valid, start, diagnostics);
    c, valid' := ReadUnsigned(backend, QueueCapacity, c, valid', start, diagnostics);
    p, valid' := ReadNamed(backend, QueuePolicyName, PolicyNamed, p, valid', start, diagnostics);
    executor := (d, c, p);
  }

  // -------------------------------------------------------------- unique files

  predicate UniqueFileReadable(backend: FieldMap)
  {
    && Readable(backend, Directory) && Readable(backend, Async) && Readable(backend, AutoDeleteDays)
    && Readable(backend, HashLength) && ExecutorReadable(backend)
  }

  function UniqueFileRead(backend: FieldMap, c: UniqueFileConfig): UniqueFileConfig
  {
    var (dedicated, capacity, policy) := ExecutorRead(backend, c.useDedicatedExecutor, c.queueCapacity);
    UniqueFileConfig(
      if Readable(backend, Directory) then backend[Directory].text else c.directory,
      if Readable(backend, Async) then backend[Async].boolean else c.async,
      if Readable(backend, AutoDeleteDays) then ToInt32(backend[AutoDeleteDays].signed) else c.autoDeleteDays,
      if Readable(backend, HashLength) then backend[HashLength].unsigned else c.hashLength,
      dedicated, capacity, policy)
  }

  method ReadUniqueFileConfig(backend: FieldMap, initial: UniqueFileConfig, diagnostics: Diagnostics)
    returns (valid: bool, config: UniqueFileConfig)
    modifies diagnostics
    ensures Extends(old(diagnostics.items), diagnostics.items, valid) && (valid <==> UniqueFileReadable(backend))
    ensures config == UniqueFileRead(backend, initial)
  {
    hide Extends, Readable, ExecutorReadable, ExecutorRead, ToInt32;
    ghost var start := diagnostics.items;
    NothingRead(start);
    valid := true;
    var directory, async := initial.directory, initial.async;
    var days, length := initial.autoDeleteDays, initial.hashLength;
    directory, valid := ReadText(backend, Directory, directory, valid, start, diagnostics);
    async, valid := ReadBool(backend, Async, async, valid, start, diagnostics);
    days, valid := ReadInt32(backend, AutoDeleteDays, days, valid, start, diagnostics);
    length, valid := ReadUnsigned(backend, HashLength, length, valid, start, diagnostics);
    var e;
    e, valid := ReadExecutor(backend, initial.useDedicatedExecutor, initial.queueCapacity, valid, start, diagnostics);
    config := UniqueFileConfig(directory, async, days, length, e.0, e.1, e.2);
  }

  // --------------------------------------------------------------------- files

  predicate RotationReadable(backend: FieldMap)
  {
    && NamedReadable(backend, Compress, CompressionNamed)
    && Readable(backend, CompressLevel) && Readable(backend, CompressAsync) && Readable(backend, ExternalCmd)
    && NamedReadable(backend, Naming, NamingNamed)
    && Readable(backend, SeqWidth)
  }

  predicate FileReadable(backend: FieldMap)
  {
    && Readable(backend, Directory) && Readable(backend, Async) && Readable(backend, AutoDeleteDays)
    && Readable(backend, MaxFileSizeBytes) && Readable(backend, MaxRotatedFiles)
    && RotationReadable(backend) && ExecutorReadable(backend)
  }

  /** How a full file is put away: the settings of compression and naming. */
  datatype Rotation = Rotation(
    compress: CompressType, level: int, async: bool, command: string, naming: RotationNaming, width: UInt32)

  function RotationOf(c: FileConfig): Rotation
  {
    Rotation(c.compress, c.compressLevel, c.compressAsync, c.externalCmd, c.naming, c.seqWidth)
  }

  function RotationRead(backend: FieldMap, c: Rotation): Rotation
  {
    Rotation(
      if NamedReadable(backend, Compress, CompressionNamed) then CompressionNamed(backend[Compress].text).value else c.compress,
      if Readable(backend, CompressLevel) then ToInt32(backend[CompressLevel].signed) else c.level,
      if Readable(backend, CompressAsync) then backend[CompressAsync].boolean else c.async,
      if Readable(backend, ExternalCmd) then backend[ExternalCmd].text else c.command,
      if NamedReadable(backend, Naming, NamingNamed) then NamingNamed(backend[Naming].text).value else c.naming,
      if Readable(backend, SeqWidth) then ToUInt32(backend[SeqWidth].unsigned) else c.width)
  }

  function FileRead(backend: FieldMap, c: FileConfig): FileConfig
  {
    var r := RotationRead(backend, RotationOf(c));
    var (dedicated, capacity, policy) := ExecutorRead(backend, c.useDedicatedExecutor, c.queueCapacity);
    FileConfig(
      if Readable(backend, Directory) then backend[Directory].text else c.directory,
      if Readable(backend, Async) then backend[Async].boolean else c.async,
      if Readable(backend, AutoDeleteDays) then ToInt32(backend[AutoDeleteDays].signed) else c.autoDeleteDays,
      if Readable(backend, MaxFileSizeBytes) then backend[MaxFileSizeBytes].unsigned else c.maxFileSizeBytes,
      if Readable(backend, MaxRotatedFiles) then ToUInt32(backend[MaxRotatedFiles].unsigned) else c.maxRotatedFiles,
      r.compress, r.level, r.async, r.command, r.naming, r.width, dedicated, capacity, policy)
  }

  /** The middle part of the file reader. */
  method ReadRotation(
    backend: FieldMap, initial: Rotation, valid: bool, ghost start: seq<Diagnostic>, diagnostics: Diagnostics)
    returns (rotation: Rotation, valid': bool)
    requires Extends(start, diagnostics.items, valid)
    modifies diagnostics
    ensures Extends(start, diagnostics.items, valid') && (valid' <==> RotationReadable(backend) && valid)
    ensures rotation == RotationRead(backend, initial)
  {
    hide Extends, Readable, NamedReadable, CompressionNamed, NamingNamed, ToInt32, ToUInt32;
    var compress, naming := initial.compress, initial.naming;
    var async, command := initial.async, initial.command;
    var level, width := initial.level, initial.width;
    compress, valid' := ReadNamed(backend, Compress, CompressionNamed, compress, valid, start, diagnostics);
    level, valid' := ReadInt32(backend, CompressLevel, level, valid', start, diagnostics);
    async, valid' := ReadBool(backend, CompressAsync, async, valid', start, diagnostics);
    command, valid' := ReadText(backend, ExternalCmd, command, valid', start, diagnostics);
    naming, valid' := ReadNamed(backend, Naming, NamingNamed, naming, valid', start, diagnostics);
    width, valid' := ReadUInt32(backend, SeqWidth, width, valid', start, diagnostics);
    rotation := Rotation(compress, level, async, command, naming, width);
  }

  method ReadFileConfig(backend: FieldMap, initial: FileConfig, diagnostics: Diagnostics)
    returns (valid: bool, config: FileConfig)
    modifies diagnostics
    ensures Extends(old(diagnostics.items), diagnostics.items, valid) && (valid <==> FileReadable(backend))
    ensures config == FileRead(backend, initial)
  {
    hide Extends, Readable, RotationReadable, RotationRead, ExecutorReadable, ExecutorRead, ToInt32, ToUInt32;
    ghost var start := diagnostics.items;
    NothingRead(start);
    valid := true;
    var directory, async, days := initial.directory, initial.async, initial.autoDeleteDays;
    var bytes, files := initial.maxFileSizeBytes, initial.maxRotatedFiles;
    directory, valid := ReadText(backend, Directory, directory, valid, start, diagnostics);
    async, valid := ReadBool(backend, Async, async, valid, start, diagnostics);
    days, valid := ReadInt32(backend, AutoDeleteDays, days, valid, start, diagnostics);
    bytes, valid := ReadUnsigned(backend, MaxFileSizeBytes, bytes, valid, start, diagnostics);
    files, valid := ReadUInt32(backend, MaxRotatedFiles, files, valid, start, diagnostics);
    var r, e;
    r, valid := ReadRotation(backend, RotationOf(initial), valid, start, diagnostics);
    e, valid := ReadExecutor(backend, initial.useDedicatedExecutor, initial.queueCapacity, valid, start, diagnostics);
    config := FileConfig(
      directory, async, days, bytes, files, r.compress, r.level, r.async, r.command, r.naming, r.width, e.0, e.1, e.2);
  }

  // ------------------------------------------------------------------ the factory

  /** A logger that the factory makes, by the configuration it is constructed with. */
  datatype RuntimeLogger = FileLogger(file: FileConfig) | UniqueFileLogger(unique: UniqueFileConfig) | MemoryLogger(memory: MemoryConfig)

  const FILE_CONFIG := FileConfig(
    "logs", true, 30, 0, 0, NoCompression, 1, true, "", Sequence, 3, false, 0, Block)

  const UNIQUE_FILE_CONFIG := UniqueFileConfig("unique_logs", true, 30, 8, false, 0, Block)

  const MEMORY_CONFIG := MemoryConfig(1000, 1024 * 1024, 24 * 60 * 60 * 1000)

  predicate ReadableEntry(entry: PlannedLogger)
  {
    match entry.backendType
    case FileType => FileReadable(entry.backend)
    case UniqueFileType => UniqueFileReadable(entry.backend)
    case MemoryType => MemoryReadable(entry.backend)
    case _ => false
  }

  /** The logger that a readable plan entry describes. */
  function Described(entry: PlannedLogger): RuntimeLogger
    requires ReadableEntry(entry)
  {
    match entry.backendType
    case FileType => FileLogger(FileRead(entry.backend, FILE_CONFIG))
    case UniqueFileType => UniqueFileLogger(UniqueFileRead(entry.backend, UNIQUE_FILE_CONFIG))
    case MemoryType => MemoryLogger(MemoryRead(entry.backend, MEMORY_CONFIG))
  }

  /** The factory as the function that the runtime layer calls. */
  function BuiltinFactory(entry: PlannedLogger, bindings: BindingSet): (Option<RuntimeLogger>, seq<Diagnostic>)
  {
    if ReadableEntry(entry) then (Some(Described(entry)), [])
    else
      var code := if entry.backendType in {FileType, UniqueFileType, MemoryType} then InvalidValue else UnavailableBackend;
      (None, [Diagnostic(code, "backend")])
  }

  lemma FactoryCodes(entry: PlannedLogger, bindings: BindingSet)
    ensures Codes(BuiltinFactory(entry, bindings).1) ==
            if ReadableEntry(entry) then {}
            else if entry.backendType in {FileType, UniqueFileType, MemoryType} then {InvalidValue}
            else {UnavailableBackend}
  {
    hide ReadableEntry, Described;
    if !ReadableEntry(entry) { CodesOfAppend([], BuiltinFactory(entry, bindings).1[0]); }
  }

  /**
   The factory: the described logger for the readable entries, and a diagnostic for the others.  The
   logger and the categories it reports are those of `BuiltinFactory`.
   */
  method Instantiate(entry: PlannedLogger, bindings: BindingSet, diagnostics: Diagnostics)
    returns (logger: Option<RuntimeLogger>)
    modifies diagnostics
    ensures logger == BuiltinFactory(entry, bindings).0
    ensures Codes(diagnostics.items) == Codes(old(diagnostics.items)) + Codes(BuiltinFactory(entry, bindings).1)
    ensures diagnostics.items == old(diagnostics.items) <==> ReadableEntry(entry)
    ensures old(diagnostics.items) <= diagnostics.items
  {
    FactoryCodes(entry, bindings);
    hide FileReadable, UniqueFileReadable, MemoryReadable, FileRead, UniqueFileRead, MemoryRead, Codes;
    match entry.backendType
    case FileType =>
      var valid, config := ReadFileConfig(entry.backend, FILE_CONFIG, diagnostics);
      return if valid then Some(FileLogger(config)) else None;
    case UniqueFileType =>
      var valid, config := ReadUniqueFileConfig(entry.backend, UNIQUE_FILE_CONFIG, diagnostics);
      return if valid then Some(UniqueFileLogger(config)) else None;
    case MemoryType =>
      var valid, config := ReadMemoryConfig(entry.backend, MEMORY_CONFIG, diagnostics);
      return if valid then Some(MemoryLogger(config)) else None;
    case _ =>
      diagnostics.Add(UnavailableBackend, "type");
      return None;
  }
}
