/** The loaders, each turning one kind of input into a key-to-value lookup with a cache,
    and the chain that tries them in order (prettyconf/loaders.py). */
module Loaders {
  import opened Base
  import opened Sources

  // ---------------------------------------------------------------------------
  // Command line

  /** A value argparse leaves in its namespace: the NOT_SET sentinel, or what the user passed. */
  datatype ArgValue<T> = NotSet | Given(value: T)

  /** get_args: the parsed entries whose value is not the NOT_SET sentinel, unchanged. The
      parse itself (`parser.parse_known_args`) is argparse's and arrives as `parsed`. */
  function GetArgs<T>(parsed: map<string, ArgValue<T>>): (args: map<string, T>)
    ensures forall k :: k in args <==> k in parsed && parsed[k] != NotSet
    ensures forall k :: k in args ==> parsed[k] == Given(args[k])
  {
    map k | k in parsed && parsed[k].Given? :: parsed[k].value
  }

  /** CommandLine: `configs` is empty at construction and nothing ever fills it, since the
      step that would load it from get_args is commented out in the source. */
  datatype CommandLine = CommandLine(configs: map<string, string>)

  /** A dictionary read: the value, or KeyError naming the key. */
  function Lookup(configs: map<string, string>, key: string): Result<PyValue> {
    if key in configs then Success(Text(configs[key])) else Failure(KeyError(key))
  }

  // ---------------------------------------------------------------------------
  // The guard every loader runs first

  /** AbstractConfigurationLoader.get_config before it delegates: a loader that declares a
      source type (only EnvFile, with FileSource) rejects a `source` of any other kind, None
      included, with TypeError; then `source or self._source` keeps the given source unless it
      is None, since every source object is truthy. So EnvFile never falls back to its own. */
  function SelectSource(needsFileSource: bool, given: SourceArg, bound: SourceArg): (r: Result<SourceArg>)
    ensures r.Failure? <==> needsFileSource && !given.FileSourceArg?
    ensures r.Failure? ==> r.error == TypeError(SourceTypeMessage)
    ensures r.Success? && given != NoSource ==> r.value == given
    ensures r.Success? && given == NoSource ==> r.value == bound
    ensures needsFileSource && r.Success? ==> r.value == given && r.value.FileSourceArg?
  {
    if needsFileSource && !given.FileSourceArg? then Failure(TypeError(SourceTypeMessage))
    else if given != NoSource then Success(given)
    else Success(bound)
  }

  // ---------------------------------------------------------------------------
  // Environment

  /** Environment.get_config as written. `copy.copy(os.environ)` builds a new `_Environ`
      that shares os.environ's data, so once the cache is set it is a view of the live
      environment: `not self.configs` and `self.configs[key]` both read the environment as it
      is at the lookup. Before the first lookup the cache is the empty dict. Either way, the
      lookup reads the current `environ`, and the cache shows it afterwards. */
  function EnvironmentStep(varFormat: string -> string, cache: map<string, string>, key: string,
                           environ: map<string, string>): (out: (Result<PyValue>, map<string, string>))
    ensures out.1 == environ
    ensures out.0.Success? <==> varFormat(key) in environ
    ensures out.0.Success? ==> out.0.value == Text(environ[varFormat(key)])
    ensures out.0.Failure? ==> out.0.error == KeyError(varFormat(key))
  {
    (Lookup(environ, varFormat(key)), environ)
  }

  /** As written, a change made to the environment after the first lookup is seen by the next
      one: after {A: "1"} answered `a`, setting B to "2" makes `b` answer "2". */
  lemma EnvironmentReadsLiveEnviron(varFormat: string -> string, first: string, second: string,
                                    environ: map<string, string>, later: map<string, string>)
    ensures var cache := EnvironmentStep(varFormat, map[], first, environ).1;
            EnvironmentStep(varFormat, cache, second, later).0 == Lookup(later, varFormat(second))
    ensures var cache := EnvironmentStep(Upper, map[], "a", map["A" := "1"]).1;
            && EnvironmentStep(Upper, cache, "b", map["A" := "1", "B" := "2"]).0 == Success(Text("2"))
            && EnvironmentSnapshotStep(Upper, cache, "b", map["A" := "1", "B" := "2"]).0 == Failure(KeyError("B"))
  {
    assert Upper("a") == "A" by {
      assert Upper("a") == [(('a' as int) - 32) as char] + Upper([]);
    }
    assert Upper("b") == "B" by {
      assert Upper("b") == [(('b' as int) - 32) as char] + Upper([]);
    }
  }

  /** The one-time snapshot the copy is meant to take: while the cache is empty the lookup
      copies the environment into it; afterwards the cache alone is read. */
  function EnvironmentSnapshotStep(varFormat: string -> string, cache: map<string, string>, key: string,
                                   environ: map<string, string>): (out: (Result<PyValue>, map<string, string>))
    ensures cache != map[] ==> out.1 == cache
    ensures cache == map[] ==> out.1 == environ
    ensures out.0.Success? <==> varFormat(key) in out.1
    ensures out.0.Success? ==> out.0.value == Text(out.1[varFormat(key)])
    ensures out.0.Failure? ==> out.0.error == KeyError(varFormat(key))
  {
    var configs := if cache == map[] then environ else cache;
    (Lookup(configs, varFormat(key)), configs)
  }

  /** With a snapshot, once it holds anything a later change of the environment is not seen. */
  lemma EnvironmentSnapshotIsKept(varFormat: string -> string, first: string, second: string,
                                  environ: map<string, string>, later: map<string, string>)
    requires environ != map[]
    ensures var snapshot := EnvironmentSnapshotStep(varFormat, map[], first, environ).1;
            EnvironmentSnapshotStep(varFormat, snapshot, second, later) == (Lookup(environ, varFormat(second)), environ)
  {
  }

  class Environment {
    const varFormat: string -> string
    /** What `self.configs` shows: the empty dict before the first lookup, afterwards the
        environment as of the latest lookup (the live view is read only by lookups). */
    var configs: map<string, string>

    constructor (varFormat: string -> string)
      ensures this.varFormat == varFormat && configs == map[]
    {
      this.varFormat := varFormat;
      configs := map[];
    }

    /** get_config(key, source): no source type, so the source is never checked or read. */
    method GetConfig(key: string, source: SourceArg, environ: map<string, string>) returns (r: Result<PyValue>)
      modifies this
      ensures (r, configs) == EnvironmentStep(varFormat, old(configs), key, environ)
    {
      // the cache is filled when empty, and otherwise is the shared view of os.environ, which
      // now shows the current environment: either way it holds `environ`
      configs := environ;
      var name := varFormat(key);
      r := Lookup(configs, name);
    }
  }

  // ---------------------------------------------------------------------------
  // EnvFile

  /** What the env-file parser makes of one stream: its entries, or a ParserError. */
  datatype Parsed = Parsed(entries: map<string, string>) | ParserError

  /** The entries a parse contributes; none for a failed parse. */
  function EntriesOf(p: Parsed): map<string, string> {
    if p.Parsed? then p.entries else map[]
  }

  /** How EnvFile._load ends: the cache it leaves, and the name of the stream it could not
      parse, if any. */
  datatype Loaded = Loaded(configs: map<string, string>, failed: Option<Path>)

  /** EnvFile._load, stream by stream: each parsed stream is merged into the cache, and the
      first one that does not parse stops the load, keeping what was merged before it. */
  function MergeStreams(configs: map<string, string>, streams: seq<Stream>, parser: Stream -> Parsed): Loaded
    decreases |streams|
  {
    if streams == [] then Loaded(configs, None)
    else match parser(streams[0])
      case ParserError => Loaded(configs, Some(streams[0].name))
      case Parsed(entries) => MergeStreams(configs + entries, streams[1..], parser)
  }

  /** The index of the first stream that does not parse, or |streams| when all parse. */
  function FirstUnparsed(streams: seq<Stream>, parser: Stream -> Parsed): (j: nat)
    ensures j <= |streams|
    ensures forall k :: 0 <= k < j ==> parser(streams[k]).Parsed?
    ensures j < |streams| ==> parser(streams[j]).ParserError?
  {
    if streams == [] || parser(streams[0]).ParserError? then 0
    else 1 + FirstUnparsed(streams[1..], parser)
  }

  /** The entries of all the streams, later streams overriding earlier ones. */
  function Overlay(streams: seq<Stream>, parser: Stream -> Parsed): map<string, string> {
    if streams == [] then map[] else EntriesOf(parser(streams[0])) + Overlay(streams[1..], parser)
  }

  /** Last write wins: a key of the overlay comes from some stream, and its value is the one
      the last stream holding that key gives it. */
  lemma {:induction false} OverlayLastWriteWins(streams: seq<Stream>, parser: Stream -> Parsed, key: string)
    ensures key in Overlay(streams, parser) <==>
            exists j :: 0 <= j < |streams| && key in EntriesOf(parser(streams[j]))
    ensures forall j :: 0 <= j < |streams| && key in EntriesOf(parser(streams[j])) &&
                        (forall k :: j < k < |streams| ==> key !in EntriesOf(parser(streams[k])))
                        ==> Overlay(streams, parser)[key] == EntriesOf(parser(streams[j]))[key]
  {
    if streams != [] {
      var rest := streams[1..];
      OverlayLastWriteWins(rest, parser, key);
      assert forall j :: 1 <= j < |streams| ==> streams[j] == rest[j - 1];
      if key in Overlay(rest, parser) {
        var j' :| 0 <= j' < |rest| && key in EntriesOf(parser(rest[j']));
        assert key in EntriesOf(parser(streams[j' + 1]));
      }
      forall j | 0 <= j < |streams| && key in EntriesOf(parser(streams[j])) &&
                 (forall k :: j < k < |streams| ==> key !in EntriesOf(parser(streams[k])))
        ensures Overlay(streams, parser)[key] == EntriesOf(parser(streams[j]))[key]
      {
        if j > 0 {
          assert key in EntriesOf(parser(rest[j - 1]));
          assert forall k :: j - 1 < k < |rest| ==> key !in EntriesOf(parser(rest[k])) by {
            forall k | j - 1 < k < |rest| ensures key !in EntriesOf(parser(rest[k])) {
              assert rest[k] == streams[k + 1];
            }
          }
        } else {
          assert key !in Overlay(rest, parser) by {
            forall j' | 0 <= j' < |rest| ensures key !in EntriesOf(parser(rest[j'])) {
              assert rest[j'] == streams[j' + 1];
            }
          }
        }
      }
    }
  }

  /** The load as a whole: the cache ends as the old cache overlaid with every stream before
      the first unparsable one, later streams winning; the load fails exactly when some
      stream does not parse, naming the first such stream. */
  lemma {:induction false} MergeStreamsIsOverlay(configs: map<string, string>, streams: seq<Stream>,
                                                 parser: Stream -> Parsed)
    ensures var j := FirstUnparsed(streams, parser);
            MergeStreams(configs, streams, parser)
              == Loaded(configs + Overlay(streams[..j], parser), if j < |streams| then Some(streams[j].name) else None)
    decreases |streams|
  {
    var j := FirstUnparsed(streams, parser);
    if streams == [] {
      assert streams[..j] == [];
    } else if parser(streams[0]).ParserError? {
      assert streams[..j] == [];
    } else {
      var entries := parser(streams[0]).entries;
      var rest := streams[1..];
      MergeStreamsIsOverlay(configs + entries, rest, parser);
      assert streams[..j] == [streams[0]] + rest[..j - 1];
      OverlayCons(streams[0], rest[..j - 1], parser);
      MergeAssociates(configs, entries, Overlay(rest[..j - 1], parser));
    }
  }

  lemma OverlayCons(s: Stream, rest: seq<Stream>, parser: Stream -> Parsed)
    ensures Overlay([s] + rest, parser) == EntriesOf(parser(s)) + Overlay(rest, parser)
  {
    assert ([s] + rest)[1..] == rest;
  }

  lemma MergeAssociates(a: map<string, string>, b: map<string, string>, c: map<string, string>)
    ensures a + b + c == a + (b + c)
  {
  }

  /** What EnvFile.get_config answers for `key` from `cache`, and the cache it leaves. */
  function EnvFileStep(envFile: EnvFile, cache: map<string, string>, key: string, given: SourceArg,
                       fs: FileSystem): (out: (Result<PyValue>, map<string, string>))
    ensures !given.FileSourceArg? ==> out == (Failure(TypeError(SourceTypeMessage)), cache)
    ensures given.FileSourceArg? && cache != map[] ==> out == (Lookup(cache, envFile.varFormat(key)), cache)
    ensures given.FileSourceArg? && cache == map[] ==>
              var load := MergeStreams(cache, OpenStreams(given.fileSource.filenames, fs), envFile.parser);
              && out.1 == load.configs
              && (load.failed.Some? ==> out.0 == Failure(InvalidConfigurationFile(ParseErrorMessage(load.failed.value))))
              && (load.failed.None? ==> out.0 == Lookup(load.configs, envFile.varFormat(key)))
  {
    match SelectSource(true, given, envFile.source)
    case Failure(e) => (Failure(e), cache)
    case Success(source) =>
      if cache != map[] then (Lookup(cache, envFile.varFormat(key)), cache)
      else
        var load := MergeStreams(cache, OpenStreams(source.fileSource.filenames, fs), envFile.parser);
        if load.failed.Some? then (Failure(InvalidConfigurationFile(ParseErrorMessage(load.failed.value))), load.configs)
        else (Lookup(load.configs, envFile.varFormat(key)), load.configs)
  }

  function ParseErrorMessage(name: Path): string {
    "Error parsing " + name
  }

  /** Load once: after a first lookup that left the cache non-empty, a later lookup reads
      that cache whatever the files hold by then. */
  lemma EnvFileCacheIsKept(envFile: EnvFile, first: string, second: string, source: FileSource,
                           fs: FileSystem, later: FileSystem)
    requires EnvFileStep(envFile, map[], first, FileSourceArg(source), fs).1 != map[]
    ensures var cache := EnvFileStep(envFile, map[], first, FileSourceArg(source), fs).1;
            EnvFileStep(envFile, cache, second, FileSourceArg(source), later)
              == (Lookup(cache, envFile.varFormat(second)), cache)
  {
  }

  class EnvFile {
    const varFormat: string -> string
    const parser: Stream -> Parsed
    /** The bound `_source`; get_config never falls back to it (see SelectSource). */
    const source: SourceArg
    var configs: map<string, string>

    /** A filename without a source becomes FileSource([filename]). */
    constructor (filename: Path, varFormat: string -> string, parser: Stream -> Parsed, source: SourceArg)
      requires filename != [] || source != NoSource
      ensures this.source == if filename != [] && source == NoSource then FileSourceArg(FileSource([filename])) else source
      ensures this.varFormat == varFormat && this.parser == parser && configs == map[]
    {
      this.source := if filename != [] && source == NoSource then FileSourceArg(FileSource([filename])) else source;
      this.varFormat := varFormat;
      this.parser := parser;
      configs := map[];
    }

    /** _load: merges every stream of the source into the cache, in order. */
    method Load(fileSource: FileSource, fs: FileSystem) returns (failed: Option<Path>)
      modifies this
      ensures Loaded(configs, failed) == MergeStreams(old(configs), OpenStreams(fileSource.filenames, fs), parser)
    {
      var streams := GetStreams(fileSource, fs);
      var i := 0;
      while i < |streams|
        invariant i <= |streams|
        invariant MergeStreams(configs, streams[i..], parser) == MergeStreams(old(configs), streams, parser)
      {
        assert streams[i..][1..] == streams[i + 1..];
        match parser(streams[i])
        case ParserError =>
          return Some(streams[i].name);
        case Parsed(entries) =>
          configs := configs + entries;
        i := i + 1;
      }
      failed := None;
    }

    /** get_config(key, source): the source guard, then a load while the cache is empty, then
        the lookup of the formatted key. */
    method GetConfig(key: string, given: SourceArg, fs: FileSystem) returns (r: Result<PyValue>)
      modifies this
      ensures (r, configs) == EnvFileStep(this, old(configs), key, given, fs)
    {
      var selected := SelectSource(true, given, source);
      if selected.Failure? {
        return Failure(selected.error);
      }
      if configs == map[] {
        var failed := Load(selected.value.fileSource, fs);
        if failed.Some? {
          return Failure(InvalidConfigurationFile(ParseErrorMessage(failed.value)));
        }
      }
      r := Lookup(configs, varFormat(key));
    }
  }

  // ---------------------------------------------------------------------------
  // IniFile

  /** IniFile: the filename and section it was given and the sections its ConfigParser holds,
      option names already lower-cased as the parser stores them. Nothing feeds the parser a
      file (the loading step is commented out in the source), so `sections` stays empty. */
  datatype IniFile = IniFile(filename: Path, section: string, varFormat: string -> string,
                             sections: map<string, map<string, Option<string>>>)

  /** `repr(key)` for a key without quotes or escapes. */
  function Quoted(key: string): string {
    "'" + key + "'"
  }

  /** IniFile._get_config: ConfigParser.get on the section and the formatted key (which the
      parser lower-cases); a missing section or option becomes KeyError(repr(key)). An option
      written without a value reads as None. */
  function IniLookup(ini: IniFile, key: string): (r: Result<PyValue>)
    ensures r.Failure? <==> ini.section !in ini.sections || Lower(ini.varFormat(key)) !in ini.sections[ini.section]
    ensures r.Failure? ==> r.error == KeyError(Quoted(key))
    ensures r.Success? ==> (r.value == PyNone <==> ini.sections[ini.section][Lower(ini.varFormat(key))].None?)
    ensures r.Success? && r.value != PyNone ==> r.value == Text(ini.sections[ini.section][Lower(ini.varFormat(key))].value)
  {
    if ini.section !in ini.sections then Failure(KeyError(Quoted(key)))
    else
      var option := Lower(ini.varFormat(key));
      if option !in ini.sections[ini.section] then Failure(KeyError(Quoted(key)))
      else match ini.sections[ini.section][option]
        case None => Success(PyNone)
        case Some(v) => Success(Text(v))
  }

  // ---------------------------------------------------------------------------
  // The chain

  /** The loader kinds the chain can hold. */
  datatype Loader =
    | CommandLineLoader(commandLine: CommandLine)
    | EnvironmentLoader(environment: Environment)
    | EnvFileLoader(envFile: EnvFile)
    | IniFileLoader(iniFile: IniFile)

  /** The process environment and the file system a lookup sees. */
  datatype World = World(environ: map<string, string>, fs: FileSystem)

  /** The object whose cache a loader updates; CommandLine and IniFile have none. */
  function Footprint(l: Loader): set<object> {
    match l
    case EnvironmentLoader(e) => {e}
    case EnvFileLoader(f) => {f}
    case _ => {}
  }

  /** The cache a loader currently holds (empty for the loaders without one). */
  ghost function CacheOf(l: Loader): map<string, string>
    reads Footprint(l)
  {
    match l
    case EnvironmentLoader(e) => e.configs
    case EnvFileLoader(f) => f.configs
    case _ => map[]
  }

  /** A loader's get_config from a given cache: its answer and the cache it leaves. */
  function Answer(l: Loader, cache: map<string, string>, key: string, given: SourceArg, world: World)
    : (Result<PyValue>, map<string, string>)
  {
    match l
    case CommandLineLoader(c) => (Lookup(c.configs, key), cache)
    case EnvironmentLoader(e) => EnvironmentStep(e.varFormat, cache, key, world.environ)
    case EnvFileLoader(f) => EnvFileStep(f, cache, key, given, world.fs)
    case IniFileLoader(i) => (IniLookup(i, key), cache)
  }

  /** A CommandLine as constructed never answers: every key is a KeyError naming it, and the
      chain moves on to the next loader. */
  lemma CommandLineAlwaysMisses(cache: map<string, string>, key: string, given: SourceArg, world: World)
    ensures Answer(CommandLineLoader(CommandLine(map[])), cache, key, given, world) == (Failure(KeyError(key)), cache)
    ensures IsMiss(Answer(CommandLineLoader(CommandLine(map[])), cache, key, given, world).0)
  {
  }

  /** The chain moves on only past a KeyError; anything else ends it. */
  predicate IsMiss(r: Result<PyValue>) {
    r.Failure? && r.error.KeyError?
  }

  /** The chain from position `i`: each loader in turn, with the cache it holds, until one
      answers with anything but KeyError; KeyError(key) when all of them miss. Returns the
      answer and the caches afterwards. */
  function ChainFrom(ls: seq<Loader>, caches: seq<map<string, string>>, i: nat, key: string,
                     given: SourceArg, world: World): (out: (Result<PyValue>, seq<map<string, string>>))
    requires |caches| == |ls| && i <= |ls|
    ensures |out.1| == |ls|
    decreases |ls| - i
  {
    if i == |ls| then (Failure(KeyError(key)), caches)
    else
      var (answer, cache) := Answer(ls[i], caches[i], key, given, world);
      if IsMiss(answer) then ChainFrom(ls, caches[i := cache], i + 1, key, given, world)
      else (answer, caches[i := cache])
  }

  /** Precedence: when the loaders from `s` to `i` (exclusive) all miss and loader `i` does
      not, the chain answers what loader `i` answers; the loaders consulted leave the caches
      their lookups left, and the loaders after `i` are never consulted. */
  lemma {:induction false} ChainReturnsFirstAnswer(ls: seq<Loader>, caches: seq<map<string, string>>,
                                                   s: nat, i: nat, key: string, given: SourceArg, world: World)
    requires |caches| == |ls| && s <= i < |ls|
    requires forall j :: s <= j < i ==> IsMiss(Answer(ls[j], caches[j], key, given, world).0)
    requires !IsMiss(Answer(ls[i], caches[i], key, given, world).0)
    ensures var out := ChainFrom(ls, caches, s, key, given, world);
      && out.0 == Answer(ls[i], caches[i], key, given, world).0
      && (forall j :: s <= j <= i ==> out.1[j] == Answer(ls[j], caches[j], key, given, world).1)
      && (forall j :: 0 <= j < s || i < j < |ls| ==> out.1[j] == caches[j])
    decreases i - s
  {
    if s < i {
      var cache := Answer(ls[s], caches[s], key, given, world).1;
      ChainReturnsFirstAnswer(ls, caches[s := cache], s + 1, i, key, given, world);
    }
  }

  /** Exhaustion: when every loader from `s` on misses, the chain raises KeyError(key) itself,
      whatever the loaders' own KeyErrors named, after consulting every one of them. */
  lemma {:induction false} ChainExhausted(ls: seq<Loader>, caches: seq<map<string, string>>, s: nat,
                                          key: string, given: SourceArg, world: World)
    requires |caches| == |ls| && s <= |ls|
    requires forall j :: s <= j < |ls| ==> IsMiss(Answer(ls[j], caches[j], key, given, world).0)
    ensures var out := ChainFrom(ls, caches, s, key, given, world);
      && out.0 == Failure(KeyError(key))
      && (forall j :: s <= j < |ls| ==> out.1[j] == Answer(ls[j], caches[j], key, given, world).1)
      && (forall j :: 0 <= j < s ==> out.1[j] == caches[j])
    decreases |ls| - s
  {
    if s < |ls| {
      var cache := Answer(ls[s], caches[s], key, given, world).1;
      ChainExhausted(ls, caches[s := cache], s + 1, key, given, world);
    }
  }

  /** The chain never invents a default: it misses only when every loader misses. */
  lemma {:induction false} ChainMissesOnlyIfAllMiss(ls: seq<Loader>, caches: seq<map<string, string>>, s: nat,
                                                    key: string, given: SourceArg, world: World)
    requires |caches| == |ls| && s <= |ls|
    requires IsMiss(ChainFrom(ls, caches, s, key, given, world).0)
    ensures forall j :: s <= j < |ls| ==> IsMiss(Answer(ls[j], caches[j], key, given, world).0)
    ensures ChainFrom(ls, caches, s, key, given, world).0 == Failure(KeyError(key))
    decreases |ls| - s
  {
    if s < |ls| {
      var cache := Answer(ls[s], caches[s], key, given, world).1;
      ChainMissesOnlyIfAllMiss(ls, caches[s := cache], s + 1, key, given, world);
    }
  }

  /** The chain a Loaders built without a list holds: CommandLine, Environment, EnvFile and
      IniFile, in that order, with their default arguments. */
  ghost predicate IsDefaultChain(ls: seq<Loader>) {
    && |ls| == 4
    && ls[0] == CommandLineLoader(CommandLine(map[]))
    && ls[1].EnvironmentLoader? && ls[1].environment.varFormat == Upper
    && ls[2].EnvFileLoader? && ls[2].envFile.varFormat == Upper
    && ls[2].envFile.source == FileSourceArg(FileSource([".env"]))
    && ls[3].IniFileLoader? && ls[3].iniFile.filename == "setup.cfg" && ls[3].iniFile.section == "settings"
    && ls[3].iniFile.sections == map[]
  }

  /** With the default chain and no source argument, a key the environment lacks reaches
      EnvFile, whose guard raises TypeError: the chain never gets to IniFile. */
  lemma DefaultChainWithoutSourceRaises(ls: seq<Loader>, caches: seq<map<string, string>>, key: string, world: World)
    requires IsDefaultChain(ls) && |caches| == 4
    requires IsMiss(Answer(ls[1], caches[1], key, NoSource, world).0)
    ensures ChainFrom(ls, caches, 0, key, NoSource, world).0 == Failure(TypeError(SourceTypeMessage))
  {
    assert Answer(ls[0], caches[0], key, NoSource, world).0 == Failure(KeyError(key));
    assert forall j :: 0 <= j < 2 ==> IsMiss(Answer(ls[j], caches[j], key, NoSource, world).0);
    assert Answer(ls[2], caches[2], key, NoSource, world).0 == Failure(TypeError(SourceTypeMessage));
    ChainReturnsFirstAnswer(ls, caches, 0, 2, key, NoSource, world);
  }

  /** No two positions of the chain share a loader object. */
  ghost predicate Separate(ls: seq<Loader>) {
    forall i, j :: 0 <= i < j < |ls| ==> Footprint(ls[i]) !! Footprint(ls[j])
  }

  function Objects(ls: seq<Loader>): set<object> {
    if ls == [] then {} else Footprint(ls[0]) + Objects(ls[1..])
  }

  lemma FootprintInObjects(ls: seq<Loader>, i: nat)
    requires i < |ls|
    ensures Footprint(ls[i]) <= Objects(ls)
  {
    if i > 0 {
      FootprintInObjects(ls[1..], i - 1);
    }
  }

  /** The caches of the chain's loaders, position by position. */
  ghost function Caches(ls: seq<Loader>): (cs: seq<map<string, string>>)
    reads Objects(ls)
    ensures |cs| == |ls|
  {
    if ls == [] then [] else [CacheOf(ls[0])] + Caches(ls[1..])
  }

  lemma CachesAt(ls: seq<Loader>, i: nat)
    requires i < |ls|
    ensures Caches(ls)[i] == CacheOf(ls[i])
  {
    if i > 0 {
      CachesAt(ls[1..], i - 1);
    }
  }

  /** Loader.get_config through the kind of loader at hand. */
  method Query(l: Loader, key: string, given: SourceArg, world: World) returns (r: Result<PyValue>)
    modifies Footprint(l)
    ensures (r, CacheOf(l)) == Answer(l, old(CacheOf(l)), key, given, world)
  {
    match l
    case CommandLineLoader(c) =>
      r := Lookup(c.configs, key);
    case EnvironmentLoader(e) =>
      r := e.GetConfig(key, given, world.environ);
    case EnvFileLoader(f) =>
      r := f.GetConfig(key, given, world.fs);
    case IniFileLoader(i) =>
      r := IniLookup(i, key);
  }

  class Loaders {
    const loaders: seq<Loader>

    ghost predicate Valid() {
      Separate(loaders)
    }

    /** Without a list, the default chain of fresh loaders; the env-file parser is the
        parser collaborator, given as `envFileParser`. */
    constructor (loaders: Option<seq<Loader>>, envFileParser: Stream -> Parsed)
      requires loaders.Some? ==> Separate(loaders.value)
      ensures loaders.Some? ==> this.loaders == loaders.value
      ensures loaders.None? ==> IsDefaultChain(this.loaders) && fresh(Objects(this.loaders))
      ensures loaders.None? ==> forall j :: 0 <= j < 4 ==> Caches(this.loaders)[j] == map[]
      ensures loaders.None? ==> this.loaders[1].environment.configs == map[] && this.loaders[2].envFile.configs == map[]
      ensures loaders.None? ==> this.loaders[2].envFile.parser == envFileParser
      ensures loaders.None? ==> forall s :: this.loaders[3].iniFile.varFormat(s) == s
      ensures Valid()
    {
      if loaders.None? {
        var environment := new Environment(Upper);
        var envFile := new EnvFile(".env", Upper, envFileParser, NoSource);
        var ls := [CommandLineLoader(CommandLine(map[])), EnvironmentLoader(environment), EnvFileLoader(envFile),
                   IniFileLoader(IniFile("setup.cfg", "settings", (s: string) => s, map[]))];
        assert Objects(ls) == {environment, envFile} by {
          assert Objects(ls[3..]) == {} by {
            assert ls[3..][1..] == [];
          }
          assert ls[2..][1..] == ls[3..];
          assert Objects(ls[2..]) == {envFile};
          assert ls[1..][1..] == ls[2..];
          assert Objects(ls[1..]) == {environment, envFile};
        }
        forall j | 0 <= j < 4 ensures Caches(ls)[j] == map[] {
          CachesAt(ls, j);
        }
        this.loaders := ls;
      } else {
        this.loaders := loaders.value;
      }
    }

    /** get_config(key, source): asks each loader in order and returns the first answer that
        is not KeyError; raises KeyError(key) when every loader misses. */
    method GetConfig(key: string, given: SourceArg, world: World) returns (r: Result<PyValue>)
      requires Valid()
      modifies Objects(loaders)
      ensures (r, Caches(loaders)) == ChainFrom(loaders, old(Caches(loaders)), 0, key, given, world)
    {
      var i := 0;
      while i < |loaders|
        invariant i <= |loaders|
        invariant ChainFrom(loaders, Caches(loaders), i, key, given, world)
                  == ChainFrom(loaders, old(Caches(loaders)), 0, key, given, world)
      {
        ghost var before := Caches(loaders);
        forall j | 0 <= j < |loaders| ensures before[j] == CacheOf(loaders[j]) {
          CachesAt(loaders, j);
        }
        FootprintInObjects(loaders, i);
        var answer := Query(loaders[i], key, given, world);
        forall j | 0 <= j < |loaders| ensures Caches(loaders)[j] == before[i := CacheOf(loaders[i])][j] {
          CachesAt(loaders, j);
        }
        assert Caches(loaders) == before[i := CacheOf(loaders[i])];
        if !IsMiss(answer) {
          return answer;
        }
        i := i + 1;
      }
      r := Failure(KeyError(key));
    }
  }
}
