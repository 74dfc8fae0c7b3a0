# prettyconf: loader chain, resolver and file sources in Dafny

prettyconf resolves a configuration key by asking an ordered chain of loaders. The
loaders are command line, process environment, `.env` files and INI files. The
chain returns the first answer that is not a `KeyError`. The resolver
(`Configuration.__call__`) then falls back to a `default` keyword on a miss. It
refuses `None` with `UnknownConfiguration` and hands everything else to a `cast`
function. A small file-discovery source walks up a directory tree looking for
files that match glob patterns.

This project models those three parts:

- **`base.dfy` (module `Base`)**: the values and exceptions the other modules share.
  - A `Result` is either a value or one of the exceptions the core raises or lets through.
  - `PyValue` is the Python value the resolver sees.
- **`sources.dfy` (module `Sources`)**:
  - `FileSource` and its `get_streams` generator, modelled as a loop method.
  - `posixpath.dirname` and `posixpath.join`, modelled exactly.
  - `RecursiveFileSearchSource`: a class with a mutable start path. It has the
    `start_path` setter, the `filenames` property, and `find_all`/`find_first`.
  - The file system is a value (`FileSystem`):
    - a map from readable files to their text;
    - the set of directories;
    - the set of other existing paths (unreadable files, FIFOs, ...);
    - `realpath` and `glob` as given functions.
- **`loaders.dfy` (module `Loaders`)**:
  - `get_args` and the source guard of `AbstractConfigurationLoader.get_config`.
  - The four loaders:
    - `Environment` and `EnvFile` are classes whose `configs` cache is filled on first use.
    - `CommandLine` and `IniFile` are values, since nothing ever changes them.
  - `Loaders`, whose `get_config` loop is proved against the function `ChainFrom`.
    That function gives the answer and the caches the loaders are left with.
- **`configuration.dfy` (module `Configuration`)**:
  - `Resolve`, the decision `__call__` makes once the chain has answered;
  - the `Configuration` class, whose `Call` method asks the chain and then applies `Resolve`.

Values that come from outside the program are parameters:
- the process environment (a `map<string, string>`);
- the file system;
- the env-file parser (a function from a stream to its entries or `ParserError`);
- the caller's directory, which the source finds by stack inspection;
- `cast`, together with a flag saying whether it is callable.

In four places the code does something other than its names and comments suggest. The model follows the code:
- **`CommandLine`:** the dictionary is never filled, because the loading step is commented
  out (prettyconf/loaders.py:156-159). So a `CommandLine` always misses.
- **`IniFile`:** its `ConfigParser` is never given a file (prettyconf/loaders.py:223-237).
  The model keeps the parser's sections as data, and they are empty in the default chain.
- **`EnvFile`:**
  - It never falls back to its bound source. The type guard rejects `None` with
    `TypeError` before `source or self._source` is evaluated, and every source object
    is truthy.
  - So a lookup with no source that reaches `EnvFile` raises `TypeError`.
    It does not fall through to `IniFile`.
- **`Environment`:** `copy.copy(os.environ)` (prettyconf/loaders.py:267) shares
  `os.environ`'s data rather than copying it. So once the cache is set, every lookup reads
  the environment as it is at that moment (see Findings).

## Model

| member | source | states |
|---|---|---|
| `Base.Upper` | prettyconf/loaders.py:256 | the default `var_format` (`str.upper`) keeps the length and maps exactly the lower-case ASCII letters to upper case |
| `Sources.OpenStreamsKeepsExisting` | prettyconf/sources.py:41-47 | the streams are exactly the listed files that can be opened, in list order, each with that file's text; missing files are skipped without error |
| `Sources.OpenStreamsCounts` | prettyconf/sources.py:42-47 | a file listed several times is opened once per listing, a missing file never |
| `Sources.GetStreams` | prettyconf/sources.py:41-47 | the generator loop yields exactly `OpenStreams` of the source's filenames |
| `Sources.Dirname` | prettyconf/sources.py:109 | `os.path.dirname` gives a prefix of its argument, equal to it exactly when the path is made of slashes only (the fixed point of the upward walk) |
| `Sources.Join` | prettyconf/sources.py:105 | `os.path.join` returns an absolute pattern unchanged; otherwise the directory, then the pattern, with a '/' between them exactly when the directory is non-empty and does not end with one |
| `Sources.DirnameOfJoin` | prettyconf/sources.py:105 | the dirname of a canonical directory joined with one relative segment is that directory: each pattern is matched inside the directory being scanned |
| `Sources.Distinct` | prettyconf/sources.py:100 | `set(patterns)` holds the same patterns, each once |
| `Sources.WalkUpShape` | prettyconf/sources.py:103-109 | the directories scanned start at the start path, each is the dirname of the one before, all are prefixes of the start path, the root is never scanned, and the walk ends just below the root or at a dirname fixed point |
| `Sources.MatchesInFrom` | prettyconf/sources.py:104-107 | a file is found in one directory exactly when some pattern joined to that directory globs to it |
| `Sources.MatchesAlongFrom` | prettyconf/sources.py:103-109 | a file is yielded by the walk exactly when some scanned directory and some pattern glob to it |
| `Sources.Search` | prettyconf/sources.py:99-109 | the placeholder start path raises TypeError at once; a string start path ends at the root exactly when the upward walk reaches it, and otherwise loops forever |
| `Sources.SearchStaysBelowRoot` | prettyconf/sources.py:103-109 | every yielded file matches a pattern in a scanned directory, that is the start directory or one of its dirname ancestors met before the root; the root itself is never scanned |
| `Sources.CheckedStartPath` | prettyconf/sources.py:69-82 | the setter raises InvalidPath for an empty path, for a normalised path that does not start with the root string, and for one that does not exist (a readable file, a directory or any other existing path); otherwise it stores the normalised path, or its dirname when it is not a directory |
| `Sources.RecursiveFileSearchSource.constructor` | prettyconf/sources.py:54-63 | no patterns gives `[]`; no start path gives the placeholder object; any given start path is stored unchecked; the root is normalised |
| `Sources.RecursiveFileSearchSource.SetStartPath` | prettyconf/sources.py:69-82 | the setter as written: the start path changes exactly as `CheckedStartPath` says, and stays unchanged when it raises |
| `Sources.RecursiveFileSearchSource.SetStartPathWithinRoot` | prettyconf/sources.py:69-82 | the setter with a segment-wise root check (see Findings): it stores what `CheckedStartPathWithinRoot` accepts and nothing otherwise |
| `Sources.RecursiveFileSearchSource.Filenames` | prettyconf/sources.py:84-88 | the property always returns the empty list; only an empty start path is replaced, by the caller's directory through the setter as written (`CheckedStartPath`), whose InvalidPath passes through |
| `Sources.RecursiveFileSearchSource.FindAllAsWritten` | prettyconf/sources.py:99-102 | as written, find_all raises AttributeError on `starting_path` before yielding anything |
| `Sources.RecursiveFileSearchSource.FindAll` | prettyconf/sources.py:99-109 | find_all over `start_path` yields exactly what `Search` gives, and ends as `Search` says |
| `Sources.RecursiveFileSearchSource.FindFirst` | prettyconf/sources.py:93-97 | the first file the walk yields; FileNotFound when it reaches the root with none; find_all's exception passes through; no answer when the walk never ends and nothing was yielded |
| `Sources.ScanUpward` | prettyconf/sources.py:103-109 | the while loop yields exactly the matches along the upward walk from the start path, and reports whether it stops at the root |
| `Sources.ScanDirectory` | prettyconf/sources.py:104-107 | the inner loops yield, pattern by pattern, the glob matches of each pattern in one directory |
| `Sources.CheckedStartPathWithinRoot` | prettyconf/sources.py:74-82 | the corrected check accepts exactly an existing path whose stored directory is the root or lies below it, and the stored directory is a prefix of the normalised path; existence is checked before containment, since containment is judged on the stored directory |
| `Sources.WithinRootReachesRoot` | prettyconf/sources.py:103-109 | from any canonical directory at or below a canonical root, the upward walk reaches the root, and every directory it scans lies at or below the root and is not the root |
| `Sources.CheckedWithinRootReachesRoot` | prettyconf/sources.py:69-82 | every start path the corrected setter stores leads find_all to the root, so the walk ends |
| `Sources.PrefixCheckAdmitsSibling` | prettyconf/sources.py:75-76 | with root "/x", the setter as written accepts "/xy", the walk from "/xy" never meets the root, and the corrected check rejects it |
| `Loaders.GetArgs` | prettyconf/loaders.py:63-76 | keeps exactly the parsed entries whose value is not the NOT_SET sentinel, values unchanged |
| `Loaders.SelectSource` | prettyconf/loaders.py:87-91 | a loader with a source type raises TypeError exactly when the given source is not a FileSource (None included); otherwise it uses the given source, or the bound one when none is given |
| `Loaders.CommandLineAlwaysMisses` | prettyconf/loaders.py:148-162 | a CommandLine as constructed answers every key with KeyError and leaves its cache alone |
| `Loaders.EnvironmentStep` | prettyconf/loaders.py:265-270 | as written, the cache shares os.environ's data, so the lookup succeeds exactly when the formatted key is in the current environment, answering its value, and otherwise raises KeyError on the formatted key; the cache then shows the current environment |
| `Loaders.EnvironmentReadsLiveEnviron` | prettyconf/loaders.py:266-270 | as written, a lookup after the first one reads the environment as it is then: with `{A: "1"}`, then B set to "2", `b` answers "2" where a snapshot raises KeyError |
| `Loaders.EnvironmentSnapshotStep` | prettyconf/loaders.py:266-270 | the intended snapshot: taken only while the cache is empty, then the cache alone is read; success exactly when the formatted key is in it |
| `Loaders.EnvironmentSnapshotIsKept` | prettyconf/loaders.py:266-267 | with a snapshot, once it holds anything a changed environment is not seen by later lookups |
| `Loaders.Environment.constructor` | prettyconf/loaders.py:256-263 | starts with an empty cache and the given key formatter |
| `Loaders.Environment.GetConfig` | prettyconf/loaders.py:265-270 | answer and new cache are those of `EnvironmentStep` (as written) on the old cache |
| `Loaders.FirstUnparsed` | prettyconf/loaders.py:196-200 | every stream before the index parses, and the stream at it, if any, does not |
| `Loaders.OverlayLastWriteWins` | prettyconf/loaders.py:201 | a key is merged exactly when some stream has it, and its value is the one from the last stream holding it |
| `Loaders.MergeStreamsIsOverlay` | prettyconf/loaders.py:195-201 | the load leaves the old cache overlaid with every stream before the first unparsable one, later streams winning; it fails exactly when a stream does not parse, naming the first such stream |
| `Loaders.EnvFileStep` | prettyconf/loaders.py:203-207 | a source that is not a FileSource raises TypeError and leaves the cache; a non-empty cache is read without loading; an empty one is loaded first, and a parse failure raises InvalidConfigurationFile naming the stream while keeping what was merged before it |
| `Loaders.EnvFileCacheIsKept` | prettyconf/loaders.py:204-205 | after a lookup that left the cache non-empty, later lookups read that cache whatever the files hold by then |
| `Loaders.EnvFile.constructor` | prettyconf/loaders.py:172-190 | a filename without a source is bound as `FileSource([filename])`; the cache starts empty |
| `Loaders.EnvFile.Load` | prettyconf/loaders.py:195-201 | the loop over the streams leaves the cache and failure that `MergeStreams` gives |
| `Loaders.EnvFile.GetConfig` | prettyconf/loaders.py:203-207 | answer and new cache are those of `EnvFileStep` on the old cache |
| `Base.Lower` | prettyconf/loaders.py:223 | `ConfigParser`'s option-name transform (`str.lower`) keeps the length and maps exactly the upper-case ASCII letters to lower case |
| `Loaders.IniLookup` | prettyconf/loaders.py:242-246 | KeyError(repr(key)) exactly when the section or the lower-cased formatted option is missing; an option without a value reads as None, any other as its text |
| `Loaders.ChainReturnsFirstAnswer` | prettyconf/loaders.py:34-39 | when the loaders before position i miss and loader i does not, the chain answers what loader i answers, and the loaders after i are not consulted |
| `Loaders.ChainExhausted` | prettyconf/loaders.py:35-41 | when every loader misses (an empty chain included), the chain raises KeyError(key) itself, after consulting every loader |
| `Loaders.ChainMissesOnlyIfAllMiss` | prettyconf/loaders.py:34-41 | the chain misses only when every loader misses; it never supplies a default |
| `Loaders.DefaultChainWithoutSourceRaises` | prettyconf/loaders.py:25-31 | in the default chain with no source, a key the environment lacks raises TypeError at EnvFile, and IniFile is never reached |
| `Loaders.Query` | prettyconf/loaders.py:37 | one loader's get_config changes only that loader's cache, as `Answer` says |
| `Loaders.Loaders.constructor` | prettyconf/loaders.py:24-32 | no list gives exactly CommandLine, Environment, EnvFile on `.env`, IniFile on `setup.cfg` section `settings`, in that order, with empty caches, the EnvFile parsing with the given env-file parser and the IniFile formatter the identity; a list is kept as given |
| `Loaders.Loaders.GetConfig` | prettyconf/loaders.py:34-41 | the loop with early return gives the answer and the caches of `ChainFrom` from the old caches |
| `Configuration.Resolve` | prettyconf/configuration.py:39-47 | a found value is cast and the default ignored; a KeyError uses the default, cast; a missing or None default, or a None value from the chain, raises UnknownConfiguration naming the key; any other exception passes through |
| `Configuration.ResolvesFirstFound` | prettyconf/configuration.py:40-47 | a string found by the first loader that does not miss is cast and returned, whatever the default |
| `Configuration.ResolvesDefaultOnMiss` | prettyconf/configuration.py:41-45 | when every loader misses, the resolver returns the cast default, or raises UnknownConfiguration when the default is missing or None |
| `Configuration.FoundNoneIsUnknown` | prettyconf/configuration.py:44-45 | a None found by a loader raises UnknownConfiguration even when a default is supplied |
| `Configuration.Configuration.constructor` | prettyconf/configuration.py:18-21 | a Loaders is kept; anything else is wrapped in Loaders(...), so no argument gives the default four-loader chain with empty caches, its EnvFile parsing with the given env-file parser and its IniFile formatter the identity |
| `Configuration.Configuration.Call` | prettyconf/configuration.py:35-47 | a non-callable cast raises TypeError and no loader is asked; otherwise the chain is asked once, leaving the caches of `ChainFrom`, and its answer is resolved by `Resolve` |

## Left out

- `AwsParameterStore` (prettyconf/loaders.py:276-330) is not modelled. It is a network client with stub methods.
- The deprecated `RecursiveSearch` loader (prettyconf/loaders.py:333-432) is not modelled. Its body is almost all commented out.
- `caller_path` is not modelled, because it inspects the stack. `Filenames` receives the caller's directory as a parameter.
- The placeholder object's `__str__` is not modelled. Only its truthiness matters, and its effect: `os.path.join` raises `TypeError` on it.
- The internals of `argparse`, the env-file parser, `ConfigParser`, `glob` and `os.path.realpath` are not modelled. They appear as given maps and functions.
  - `ConfigParser`'s `DEFAULT` section and value interpolation are not modelled.
- `open` failing for a reason other than a missing file is treated as a missing file. Reading streams is not modelled; a stream is its name and text.
- The cast helpers are not modelled. `cast` is any function, and an exception it raises is not modelled.
- The deprecated `__contains__`, `__getitem__` and `check` are not modelled, nor are the `warnings` calls, the `loaders` property of `Configuration`, `reset` and every `__repr__`.
- Base.Upper: models `str.upper` on ASCII letters only.
- Base.Lower: models `str.lower` on ASCII letters only.
- Loaders.IniLookup: lower-cases ASCII letters only, as `Base.Lower` does.
- Loaders.Quoted: stands for `repr(key)` only for keys without quotes or backslashes.
- Sources.Distinct: fixes the iteration order of `set(patterns)` as first occurrence. Python leaves that order unspecified, so the order of yielded files within one directory is this model's choice.
- Sources.RecursiveFileSearchSource.FindAll: when `dirname` reaches a fixed point other than the root, the source scans that directory forever. The model scans it once and reports `LoopsForever`; `FindFirst` then reports `Hangs` when nothing was yielded, and the first yielded file otherwise.
- Loaders.Environment.GetConfig: the field `configs` holds the environment as of the latest lookup. In the source it is a live view of `os.environ` between lookups too; no lookup reads the stale value, so answers are unaffected.
- Loaders.Loaders.constructor: requires that no two positions of a given list share a loader object. A chain that holds the same cached loader twice is not modelled.
- Loaders.EnvFile.constructor: requires a filename or a source. With neither, the source raises `TypeError` from calling `FileSource()` without arguments, and that path is not modelled.
- Configuration.Configuration.constructor: requires the same distinct loader objects as `Loaders.Loaders.constructor`.
- Configuration.Configuration.Call: models Python's `callable(cast)` as the flag `castIsCallable`.

## Findings

| source | as written | input that shows it | evidently intended | confidence | as-written member | corrected member |
|---|---|---|---|---|---|---|
| prettyconf/sources.py:102 | `find_all` reads `self.starting_path`, which the class never defines | any call, e.g. `find_all(['*.cfg'])` on a source built with `start_path='/tmp'`: AttributeError before anything is yielded | walk up from `self.start_path` | not executed | `Sources.RecursiveFileSearchSource.FindAllAsWritten` | `Sources.RecursiveFileSearchSource.FindAll` |
| prettyconf/loaders.py:267 | `copy.copy(os.environ)` makes an `_Environ` sharing `os.environ`'s data, so the cache is a live view, not a snapshot | environment `{A: "1"}`, `get_config('a')`, then `os.environ['B'] = '2'`, then `get_config('b')` answers `'2'` | a one-time snapshot (`os.environ.copy()`), after which changes are not seen | not executed | `Loaders.EnvironmentReadsLiveEnviron` | `Loaders.EnvironmentSnapshotIsKept` |
| prettyconf/sources.py:75 | the root check is a string-prefix test on the normalised path | root `/x` and an existing directory `/xy`: the setter accepts it, and the walk goes `/xy`, `/`, `/`, ... and never meets `/x` | accept only the root or directories below it, comparing whole segments, so the walk ends at the root; the corrected check tests the directory it stores, so it runs after the existence check, and a missing path outside the root raises 'Invalid starting path' rather than 'Invalid root path given' | not executed | `Sources.PrefixCheckAdmitsSibling` | `Sources.CheckedWithinRootReachesRoot` |
