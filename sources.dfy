/** Where raw configuration text lives: a fixed list of files, or the files found by
    walking from a start directory up towards a root directory (prettyconf/sources.py). */
module Sources {
  import opened Base

  type Path = string

  /** The file system as the sources see it. `files` maps every regular file that `open`
      can read to its text, `dirs` lists the directories, `others` the remaining paths that
      exist (files `open` cannot read, FIFOs, ...), `realpath` stands for
      `os.path.realpath(os.path.abspath(p))` and `glob` for `glob.glob(pattern)`. */
  datatype FileSystem = FileSystem(
    files: map<Path, string>,
    dirs: set<Path>,
    others: set<Path>,
    realpath: Path -> Path,
    glob: Path -> seq<Path>)
  {
    /** os.path.exists */
    predicate Exists(p: Path) {
      p in files || p in dirs || p in others
    }
  }

  /** An open text stream: the name it was opened with and the text it yields. */
  datatype Stream = Stream(name: Path, text: string)

  /** FileSource: a list of filenames fixed at construction. */
  datatype FileSource = FileSource(filenames: seq<Path>)

  /** The `source` argument a caller hands to a loader: None, a FileSource, or a
      RecursiveFileSearchSource. No loader reads the latter, so only its identity matters. */
  datatype SourceArg =
    | NoSource
    | FileSourceArg(fileSource: FileSource)
    | SearchSourceArg(search: RecursiveFileSearchSource)

  function Names(streams: seq<Stream>): (names: seq<Path>)
    ensures |names| == |streams|
    ensures forall i :: 0 <= i < |streams| ==> names[i] == streams[i].name
  {
    if streams == [] then [] else [streams[0].name] + Names(streams[1..])
  }

  /** `a` is `b` with some elements dropped, the rest kept in order. */
  ghost predicate Subsequence<T>(a: seq<T>, b: seq<T>)
    decreases |b|
  {
    a == [] || (b != [] && if a[0] == b[0] then Subsequence(a[1..], b[1..]) else Subsequence(a, b[1..]))
  }

  /** The streams FileSource.get_streams yields for `filenames`: one per file that can be
      opened, in list order; a missing file is skipped without error. */
  function OpenStreams(filenames: seq<Path>, fs: FileSystem): seq<Stream>
  {
    if filenames == [] then []
    else
      var rest := OpenStreams(filenames[1..], fs);
      if filenames[0] in fs.files then [Stream(filenames[0], fs.files[filenames[0]])] + rest else rest
  }

  /** The streams are exactly the listed files that can be opened, each with its text, in
      list order. */
  lemma {:induction false} OpenStreamsKeepsExisting(filenames: seq<Path>, fs: FileSystem)
    ensures var streams := OpenStreams(filenames, fs);
      && (forall s :: s in streams ==> s.name in fs.files && s.text == fs.files[s.name])
      && (forall f :: f in Names(streams) <==> f in filenames && f in fs.files)
      && Subsequence(Names(streams), filenames)
  {
    if filenames != [] {
      var rest := OpenStreams(filenames[1..], fs);
      OpenStreamsKeepsExisting(filenames[1..], fs);
      if filenames[0] in fs.files {
        NamesCons(Stream(filenames[0], fs.files[filenames[0]]), rest);
      } else {
        assert Names(rest) != [] ==> Names(rest)[0] != filenames[0] by {
          if Names(rest) != [] {
            assert rest[0] in rest;
          }
        }
      }
    }
  }

  /** A file listed several times is opened as many times as it is listed; a missing file
      not at all. */
  lemma {:induction false} OpenStreamsCounts(filenames: seq<Path>, fs: FileSystem, f: Path)
    ensures multiset(Names(OpenStreams(filenames, fs)))[f] == if f in fs.files then multiset(filenames)[f] else 0
  {
    if filenames != [] {
      var rest := OpenStreams(filenames[1..], fs);
      OpenStreamsCounts(filenames[1..], fs, f);
      assert filenames == [filenames[0]] + filenames[1..];
      if filenames[0] in fs.files {
        NamesCons(Stream(filenames[0], fs.files[filenames[0]]), rest);
      }
    }
  }

  lemma NamesCons(s: Stream, rest: seq<Stream>)
    ensures Names([s] + rest) == [s.name] + Names(rest)
  {
    assert ([s] + rest)[1..] == rest;
  }

  /** FileSource.get_streams: opens each listed file in turn, skipping the missing ones. */
  method GetStreams(source: FileSource, fs: FileSystem) returns (streams: seq<Stream>)
    ensures streams == OpenStreams(source.filenames, fs)
  {
    var filenames := source.filenames;
    streams := [];
    var i := 0;
    while i < |filenames|
      invariant i <= |filenames|
      invariant streams + OpenStreams(filenames[i..], fs) == OpenStreams(filenames, fs)
    {
      assert filenames[i..][1..] == filenames[i + 1..];
      if filenames[i] in fs.files {
        streams := streams + [Stream(filenames[i], fs.files[filenames[i]])];
      }
      i := i + 1;
    }
    assert filenames[i..] == [];
  }

  // ---------------------------------------------------------------------------
  // POSIX path helpers (posixpath.dirname and posixpath.join)

  /** `p.rfind('/') + 1`: the length of `p` up to and including its last '/', or 0. */
  function AfterLastSlash(p: Path): (i: nat)
    ensures i <= |p|
    ensures i > 0 ==> p[i - 1] == '/'
    ensures forall k :: i <= k < |p| ==> p[k] != '/'
  {
    if p == [] then 0
    else if p[|p| - 1] == '/' then |p|
    else AfterLastSlash(p[..|p| - 1])
  }

  predicate AllSlashes(s: string) {
    forall k :: 0 <= k < |s| ==> s[k] == '/'
  }

  /** `s.rstrip('/')` */
  function RStripSlashes(s: string): (r: string)
    ensures r <= s
    ensures r == [] || r[|r| - 1] != '/'
    ensures forall k :: |r| <= k < |s| ==> s[k] == '/'
  {
    if s != [] && s[|s| - 1] == '/' then RStripSlashes(s[..|s| - 1]) else s
  }

  /** os.path.dirname: the part before the last '/', with trailing slashes removed
      unless it consists of slashes only. The result is a prefix of `p`, and equal to
      `p` exactly when `p` is made of slashes only (the empty path, "/", "//", ...). */
  function Dirname(p: Path): (d: Path)
    ensures d <= p
    ensures d == p <==> AllSlashes(p)
  {
    var i := AfterLastSlash(p);
    var head := p[..i];
    if head != [] && !AllSlashes(head) then
      var d := RStripSlashes(head);
      assert |d| < |p| by {
        if |d| == |head| {
          assert d == head;
          assert head[|head| - 1] == '/';
        }
      }
      d
    else
      assert head == p ==> AllSlashes(p);
      assert AllSlashes(p) ==> head == p by {
        if AllSlashes(p) && p != [] {
          assert p[|p| - 1] == '/';
        }
      }
      head
  }

  /** os.path.join(dir, pattern): an absolute pattern replaces the directory; otherwise the
      pattern follows the directory, with one '/' in between unless the directory is empty
      or already ends with one. */
  function Join(dir: Path, pattern: string): (r: Path)
    ensures pattern != [] && pattern[0] == '/' ==> r == pattern
    ensures !(pattern != [] && pattern[0] == '/') ==>
              && dir <= r && |dir| + |pattern| <= |r| <= |dir| + |pattern| + 1
              && r[|r| - |pattern|..] == pattern
              && (dir != [] ==> r[|r| - |pattern| - 1] == '/')
    ensures !(pattern != [] && pattern[0] == '/') ==>
              |r| == |dir| + |pattern| + (if dir != [] && dir[|dir| - 1] != '/' then 1 else 0)
  {
    if pattern != [] && pattern[0] == '/' then pattern
    else if dir == [] || dir[|dir| - 1] == '/' then dir + pattern
    else dir + "/" + pattern
  }

  /** A duplicate-free listing of the patterns, keeping first occurrences. `set(patterns)`
      iterates in an order Python leaves unspecified; this model fixes one. */
  function Distinct(s: seq<string>): (r: seq<string>)
    ensures forall x :: x in r <==> x in s
    ensures forall i, j :: 0 <= i < j < |r| ==> r[i] != r[j]
  {
    if s == [] then []
    else
      var rest := Distinct(s[..|s| - 1]);
      assert s == s[..|s| - 1] + [s[|s| - 1]];
      if s[|s| - 1] in rest then rest else rest + [s[|s| - 1]]
  }

  // ---------------------------------------------------------------------------
  // The upward walk of RecursiveFileSearchSource.find_all

  /** The directories the walk scans, in order, and whether it stops at the root. */
  datatype Walk = Walk(dirs: seq<Path>, reachesRoot: bool)

  /** The directories find_all scans from `cur`: `cur`, then its dirname, and so on, while
      the current path differs from `root`. When dirname reaches a fixed point other than
      `root` the source's loop scans that directory again forever: the walk lists it once and
      reports that the root is never reached. */
  function WalkUp(cur: Path, root: Path): Walk
    decreases |cur|
  {
    if cur == root then Walk([], true)
    else if Dirname(cur) == cur then Walk([cur], false)
    else
      var up := WalkUp(Dirname(cur), root);
      Walk([cur] + up.dirs, up.reachesRoot)
  }

  /** One step of the walk: below a path other than the root and the fixed point, the walk
      scans that path and continues from its dirname. */
  lemma WalkUpStep(cur: Path, root: Path)
    requires cur != root && Dirname(cur) != cur
    ensures WalkUp(cur, root).dirs == [cur] + WalkUp(Dirname(cur), root).dirs
    ensures WalkUp(cur, root).reachesRoot == WalkUp(Dirname(cur), root).reachesRoot
  {
  }

  /** What one step of the walk yields: the matches in `cur`, then those further up. */
  lemma MatchesAlongStep(cur: Path, root: Path, patterns: seq<string>, glob: Path -> seq<Path>)
    requires cur != root && Dirname(cur) != cur
    ensures MatchesAlong(WalkUp(cur, root).dirs, patterns, glob)
            == MatchesIn(cur, patterns, glob) + MatchesAlong(WalkUp(Dirname(cur), root).dirs, patterns, glob)
  {
    WalkUpStep(cur, root);
    var up := WalkUp(Dirname(cur), root).dirs;
    assert ([cur] + up)[1..] == up;
  }

  /** The walk starts at `cur`, goes up one dirname at a time, never scans `root`, only
      scans prefixes of `cur`, and ends just below the root or at a dirname fixed point. */
  lemma {:induction false} WalkUpShape(cur: Path, root: Path)
    ensures var w := WalkUp(cur, root);
      && root !in w.dirs
      && (w.dirs == [] <==> cur == root)
      && (w.dirs != [] ==> w.dirs[0] == cur)
      && (forall k :: 0 <= k < |w.dirs| - 1 ==> w.dirs[k + 1] == Dirname(w.dirs[k]))
      && (forall d :: d in w.dirs ==> d <= cur)
      && (w.dirs != [] && w.reachesRoot ==> Dirname(w.dirs[|w.dirs| - 1]) == root)
      && (w.dirs != [] && !w.reachesRoot ==> Dirname(w.dirs[|w.dirs| - 1]) == w.dirs[|w.dirs| - 1])
    decreases |cur|
  {
    if cur != root && Dirname(cur) != cur {
      var up := WalkUp(Dirname(cur), root);
      WalkUpShape(Dirname(cur), root);
      WalkUpStep(cur, root);
      var w := WalkUp(cur, root);
      forall k | 0 <= k < |w.dirs| - 1 ensures w.dirs[k + 1] == Dirname(w.dirs[k]) {
        if k > 0 {
          assert w.dirs[k] == up.dirs[k - 1] && w.dirs[k + 1] == up.dirs[k];
        }
      }
      forall d | d in w.dirs ensures d <= cur {
        if d != cur {
          assert d in up.dirs;
          PrefixTransitive(d, Dirname(cur), cur);
        }
      }
      assert w.dirs[|w.dirs| - 1] == if up.dirs == [] then cur else up.dirs[|up.dirs| - 1];
    } else {
      WalkUpEnd(cur, root);
    }
  }

  /** Where the walk stops: nothing is scanned at the root, and a dirname fixed point is
      scanned (once) with the root not reached. */
  lemma WalkUpEnd(cur: Path, root: Path)
    requires cur == root || Dirname(cur) == cur
    ensures WalkUp(cur, root) == if cur == root then Walk([], true) else Walk([cur], false)
  {
  }

  lemma PrefixTransitive(a: Path, b: Path, c: Path)
    requires a <= b && b <= c
    ensures a <= c
  {
    assert c[..|b|][..|a|] == c[..|a|];
  }

  /** The files one directory contributes: the glob matches of each pattern in turn. */
  function MatchesIn(dir: Path, patterns: seq<string>, glob: Path -> seq<Path>): seq<Path>
  {
    if patterns == [] then [] else glob(Join(dir, patterns[0])) + MatchesIn(dir, patterns[1..], glob)
  }

  /** The files a sequence of directories contributes, directory by directory. */
  function MatchesAlong(dirs: seq<Path>, patterns: seq<string>, glob: Path -> seq<Path>): seq<Path>
  {
    if dirs == [] then [] else MatchesIn(dirs[0], patterns, glob) + MatchesAlong(dirs[1..], patterns, glob)
  }

  lemma {:induction false} MatchesInFrom(dir: Path, patterns: seq<string>, glob: Path -> seq<Path>, f: Path)
    ensures f in MatchesIn(dir, patterns, glob) <==> exists p :: p in patterns && f in glob(Join(dir, p))
  {
    if patterns != [] {
      MatchesInFrom(dir, patterns[1..], glob, f);
      assert forall p :: p in patterns <==> p == patterns[0] || p in patterns[1..];
    }
  }

  /** Every file the walk yields is a glob match of a listed pattern in a scanned directory,
      and every such match is yielded. */
  lemma {:induction false} MatchesAlongFrom(dirs: seq<Path>, patterns: seq<string>, glob: Path -> seq<Path>, f: Path)
    ensures f in MatchesAlong(dirs, patterns, glob)
        <==> exists d, p :: d in dirs && p in patterns && f in glob(Join(d, p))
  {
    if dirs != [] {
      MatchesAlongFrom(dirs[1..], patterns, glob, f);
      MatchesInFrom(dirs[0], patterns, glob, f);
      assert forall d :: d in dirs <==> d == dirs[0] || d in dirs[1..];
    }
  }

  /** How a run of find_all ends: the walk reached the root, it would go on forever at a
      dirname fixed point, or it raised. */
  datatype Ending = ReachedRoot | LoopsForever | Raised(error: Error)

  /** What a generator yields before it ends. */
  datatype Scan = Scan(files: seq<Path>, ending: Ending)

  /** The start path: the placeholder object installed when none is given, or a string. */
  datatype StartPath = MagicStartPath | StartAt(path: Path)

  /** What os.path.join and os.path.dirname raise when handed the placeholder object. */
  const NotAPathMessage := "expected str, bytes or os.PathLike object, not MagicStartPath"
  const FileNotFoundMessage := "Cannot find one file with the patterns {patterns}"
  const InvalidStartMessage := "Invalid starting path"
  const InvalidRootMessage := "Invalid root path given"

  /** The files find_all yields from `start` with the given patterns, and how it ends.
      The placeholder start path fails on the first step with a TypeError. */
  function Search(start: StartPath, root: Path, patterns: seq<string>, glob: Path -> seq<Path>): (s: Scan)
    ensures start.MagicStartPath? ==> s == Scan([], Raised(TypeError(NotAPathMessage)))
    ensures start.StartAt? ==> s.ending == (if WalkUp(start.path, root).reachesRoot then ReachedRoot else LoopsForever)
  {
    match start
    case MagicStartPath => Scan([], Raised(TypeError(NotAPathMessage)))
    case StartAt(p) =>
      var w := WalkUp(p, root);
      Scan(MatchesAlong(w.dirs, Distinct(patterns), glob), if w.reachesRoot then ReachedRoot else LoopsForever)
  }

  /** Where the yields come from: a file find_all yields is a match of one of the patterns in
      a directory the walk scans, that is the start directory or one of its dirname ancestors
      met before `root`; `root` itself is never scanned. Those directories lie below `root`
      only when the start path does (see WithinRootReachesRoot). */
  lemma SearchStaysBelowRoot(p: Path, root: Path, patterns: seq<string>, glob: Path -> seq<Path>, f: Path)
    requires f in Search(StartAt(p), root, patterns, glob).files
    ensures exists d, pat :: d in WalkUp(p, root).dirs && pat in patterns && f in glob(Join(d, pat))
    ensures forall d :: d in WalkUp(p, root).dirs ==> d != root && d <= p
  {
    MatchesAlongFrom(WalkUp(p, root).dirs, Distinct(patterns), glob, f);
    WalkUpShape(p, root);
  }

  /** What find_first returns: the first match, an exception, or nothing at all because
      the walk never ends and finds nothing. */
  datatype FirstMatch = Match(path: Path) | NoMatch(error: Error) | Hangs

  /** What the start_path setter stores for `path`, or the InvalidPath it raises. */
  function CheckedStartPath(path: Path, root: Path, fs: FileSystem): (r: Result<Path>)
    ensures path == [] ==> r == Failure(InvalidPath(InvalidStartMessage))
    ensures path != [] && !(root <= fs.realpath(path)) ==> r == Failure(InvalidPath(InvalidRootMessage))
    ensures path != [] && root <= fs.realpath(path) && !fs.Exists(fs.realpath(path))
            ==> r == Failure(InvalidPath(InvalidStartMessage))
    ensures r.Success? <==> path != [] && root <= fs.realpath(path) && fs.Exists(fs.realpath(path))
    ensures r.Success? && fs.realpath(path) in fs.dirs ==> r.value == fs.realpath(path)
    ensures r.Success? && fs.realpath(path) !in fs.dirs ==> r.value == Dirname(fs.realpath(path))
    ensures r.Success? ==> r.value <= fs.realpath(path)
  {
    if path == [] then Failure(InvalidPath(InvalidStartMessage))
    else
      var p := fs.realpath(path);
      if !(root <= p) then Failure(InvalidPath(InvalidRootMessage))
      else if !fs.Exists(p) then Failure(InvalidPath(InvalidStartMessage))
      else if p !in fs.dirs then Success(Dirname(p))
      else Success(p)
  }

  class RecursiveFileSearchSource {
    const patterns: seq<string>
    var startPath: StartPath
    const rootPath: Path

    /** The start path given here is stored as it is, without the setter's checks. */
    constructor (patterns: Option<seq<string>>, startPath: Option<Path>, rootPath: Path, fs: FileSystem)
      ensures this.patterns == (if patterns.None? then [] else patterns.value)
      ensures this.startPath == (if startPath.None? then MagicStartPath else StartAt(startPath.value))
      ensures this.rootPath == fs.realpath(rootPath)
    {
      this.patterns := if patterns.None? then [] else patterns.value;
      this.startPath := if startPath.None? then MagicStartPath else StartAt(startPath.value);
      this.rootPath := fs.realpath(rootPath);
    }

    /** The start_path setter: rejects an empty path, a normalised path that does not
        begin with the root path, and a path that does not exist; stores the directory. */
    method SetStartPath(path: Path, fs: FileSystem) returns (raised: Option<Error>)
      modifies this
      ensures CheckedStartPath(path, rootPath, fs).Failure? ==>
                raised == Some(CheckedStartPath(path, rootPath, fs).error) && startPath == old(startPath)
      ensures CheckedStartPath(path, rootPath, fs).Success? ==>
                raised == None && startPath == StartAt(CheckedStartPath(path, rootPath, fs).value)
    {
      if path == [] {
        return Some(InvalidPath(InvalidStartMessage));
      }
      var p := fs.realpath(path);
      if !(rootPath <= p) {
        return Some(InvalidPath(InvalidRootMessage));
      }
      if !fs.Exists(p) {
        return Some(InvalidPath(InvalidStartMessage));
      }
      if p !in fs.dirs {
        p := Dirname(p);
      }
      startPath := StartAt(p);
      raised := None;
    }

    /** The setter with the containment check the string-prefix test stands for (see
        WithinRoot): the stored directory must be the root or lie below it. */
    method SetStartPathWithinRoot(path: Path, fs: FileSystem) returns (raised: Option<Error>)
      modifies this
      ensures CheckedStartPathWithinRoot(path, rootPath, fs).Failure? ==>
                raised == Some(CheckedStartPathWithinRoot(path, rootPath, fs).error) && startPath == old(startPath)
      ensures CheckedStartPathWithinRoot(path, rootPath, fs).Success? ==>
                raised == None && startPath == StartAt(CheckedStartPathWithinRoot(path, rootPath, fs).value)
    {
      if path == [] {
        return Some(InvalidPath(InvalidStartMessage));
      }
      var p := fs.realpath(path);
      if !fs.Exists(p) {
        return Some(InvalidPath(InvalidStartMessage));
      }
      if p !in fs.dirs {
        p := Dirname(p);
      }
      if !WithinRoot(p, rootPath) {
        return Some(InvalidPath(InvalidRootMessage));
      }
      startPath := StartAt(p);
      raised := None;
    }

    /** The filenames property: a falsy (empty) start path is replaced through the setter by
        the caller's directory, which the source finds by stack inspection and the model
        takes as `callerPath`; the list returned is always empty. The placeholder object is
        truthy, so it is never replaced. */
    method Filenames(callerPath: Path, fs: FileSystem) returns (r: Result<seq<Path>>)
      modifies this
      ensures r.Success? ==> r.value == []
      ensures old(startPath) != StartAt([]) ==> r == Success([]) && startPath == old(startPath)
      ensures old(startPath) == StartAt([]) ==>
                var c := CheckedStartPath(callerPath, rootPath, fs);
                (c.Failure? ==> r == Failure(c.error) && startPath == old(startPath)) &&
                (c.Success? ==> r == Success([]) && startPath == StartAt(c.value))
    {
      if startPath == StartAt([]) {
        var raised := SetStartPath(callerPath, fs);
        if raised.Some? {
          return Failure(raised.value);
        }
      }
      r := Success([]);
    }

    /** find_all exactly as written: its first step reads `self.starting_path`, an attribute
        this class does not have, so the generator raises before yielding anything. */
    method FindAllAsWritten(patterns: seq<string>, fs: FileSystem) returns (scan: Scan)
      ensures scan.files == [] && scan.ending == Raised(AttributeError("starting_path"))
    {
      scan := Scan([], Raised(AttributeError("starting_path")));
    }

    /** find_all reading `start_path`: scans the start directory and each dirname ancestor
        until the current path equals the root path, yielding the glob matches of each
        distinct pattern, directory by directory. */
    method FindAll(patterns: seq<string>, fs: FileSystem) returns (scan: Scan)
      ensures scan == Search(startPath, rootPath, patterns, fs.glob)
    {
      if startPath.MagicStartPath? {
        return Scan([], Raised(TypeError(NotAPathMessage)));
      }
      var files, reachesRoot := ScanUpward(startPath.path, rootPath, Distinct(patterns), fs);
      scan := Scan(files, if reachesRoot then ReachedRoot else LoopsForever);
    }

    /** find_first: the first file find_all yields; FileNotFound when the walk reaches the
        root without a match; whatever find_all raises; no answer when the walk never ends. */
    method FindFirst(patterns: seq<string>, fs: FileSystem) returns (r: FirstMatch)
      ensures var s := Search(startPath, rootPath, patterns, fs.glob);
              && (s.files != [] ==> r == Match(s.files[0]))
              && (s.files == [] && s.ending == ReachedRoot ==> r == NoMatch(FileNotFound(FileNotFoundMessage)))
              && (s.files == [] && s.ending.Raised? ==> r == NoMatch(s.ending.error))
              && (s.files == [] && s.ending == LoopsForever ==> r == Hangs)
    {
      var scan := FindAll(patterns, fs);
      if scan.files != [] {
        return Match(scan.files[0]);
      }
      match scan.ending
      case ReachedRoot => r := NoMatch(FileNotFound(FileNotFoundMessage));
      case Raised(e) => r := NoMatch(e);
      case LoopsForever => r := Hangs;
    }
  }

  /** The while loop of find_all: from `start`, scans the current directory and moves to its
      dirname until the current path equals `root`. Where dirname reaches a fixed point the
      source would scan that directory again forever; the loop scans it once and reports
      that the root is not reached. */
  method ScanUpward(start: Path, root: Path, patterns: seq<string>, fs: FileSystem)
    returns (files: seq<Path>, reachesRoot: bool)
    ensures files == MatchesAlong(WalkUp(start, root).dirs, patterns, fs.glob)
    ensures reachesRoot == WalkUp(start, root).reachesRoot
  {
    var cur := start;
    files := [];
    while cur != root && Dirname(cur) != cur
      invariant files + MatchesAlong(WalkUp(cur, root).dirs, patterns, fs.glob)
                == MatchesAlong(WalkUp(start, root).dirs, patterns, fs.glob)
      invariant WalkUp(cur, root).reachesRoot == WalkUp(start, root).reachesRoot
      decreases |cur|
    {
      var found := ScanDirectory(cur, patterns, fs);
      MatchesAlongStep(cur, root, patterns, fs.glob);
      WalkUpStep(cur, root);
      assert files + found + MatchesAlong(WalkUp(Dirname(cur), root).dirs, patterns, fs.glob)
          == files + (found + MatchesAlong(WalkUp(Dirname(cur), root).dirs, patterns, fs.glob));
      files := files + found;
      cur := Dirname(cur);
    }
    WalkUpEnd(cur, root);
    if cur == root {
      reachesRoot := true;
    } else {
      // dirname has reached a fixed point: the source scans `cur` and then repeats
      var found := ScanDirectory(cur, patterns, fs);
      assert [cur][1..] == [];
      files := files + found;
      reachesRoot := false;
    }
  }

  /** The glob matches of each pattern in one directory, pattern by pattern. */
  method ScanDirectory(dir: Path, patterns: seq<string>, fs: FileSystem) returns (found: seq<Path>)
    ensures found == MatchesIn(dir, patterns, fs.glob)
  {
    found := [];
    var j := 0;
    while j < |patterns|
      invariant j <= |patterns|
      invariant found + MatchesIn(dir, patterns[j..], fs.glob) == MatchesIn(dir, patterns, fs.glob)
    {
      assert patterns[j..][1..] == patterns[j + 1..];
      found := found + fs.glob(Join(dir, patterns[j]));
      j := j + 1;
    }
    assert patterns[j..] == [];
  }

  // ---------------------------------------------------------------------------
  // The root-containment check (see README, Findings)

  /** A path as realpath returns it: absolute, without empty segments, and without a
      trailing slash unless it is "/". */
  predicate Canonical(p: Path) {
    && p != []
    && p[0] == '/'
    && (forall k :: 0 <= k < |p| - 1 ==> !(p[k] == '/' && p[k + 1] == '/'))
    && (p == "/" || p[|p| - 1] != '/')
  }

  /** `root` with exactly one trailing slash. */
  function AsDirectory(root: Path): Path {
    if root != [] && root[|root| - 1] == '/' then root else root + "/"
  }

  /** `d` is `root` or lies below it, comparing whole path segments. */
  predicate WithinRoot(d: Path, root: Path) {
    d == root || AsDirectory(root) <= d
  }

  /** The start_path setter with the segment-wise containment check, applied to the
      directory that is stored. */
  function CheckedStartPathWithinRoot(path: Path, root: Path, fs: FileSystem): (r: Result<Path>)
    ensures path == [] ==> r == Failure(InvalidPath(InvalidStartMessage))
    ensures r.Success? <==> path != [] && fs.Exists(fs.realpath(path)) &&
                            WithinRoot(if fs.realpath(path) in fs.dirs then fs.realpath(path)
                                       else Dirname(fs.realpath(path)), root)
    ensures r.Success? ==> WithinRoot(r.value, root) && r.value <= fs.realpath(path)
  {
    if path == [] then Failure(InvalidPath(InvalidStartMessage))
    else
      var p := fs.realpath(path);
      if !fs.Exists(p) then Failure(InvalidPath(InvalidStartMessage))
      else
        var d := if p in fs.dirs then p else Dirname(p);
        if !WithinRoot(d, root) then Failure(InvalidPath(InvalidRootMessage)) else Success(d)
  }

  lemma AsDirectoryOfCanonical(root: Path)
    requires Canonical(root)
    ensures root == "/" ==> AsDirectory(root) == "/"
    ensures root != "/" ==> AsDirectory(root) == root + "/" && |AsDirectory(root)| >= 2
  {
  }

  /** dirname of a canonical path other than "/" is canonical and strictly shorter: "/" when
      the last '/' is the first character, otherwise everything before the last '/'. */
  lemma DirnameOfCanonical(d: Path)
    requires Canonical(d) && d != "/"
    ensures AfterLastSlash(d) >= 1
    ensures AfterLastSlash(d) == 1 ==> Dirname(d) == "/"
    ensures AfterLastSlash(d) >= 2 ==> Dirname(d) == d[..AfterLastSlash(d) - 1]
    ensures Canonical(Dirname(d)) && Dirname(d) != d
  {
    var i := AfterLastSlash(d);
    assert d[0] == '/';
    var head := d[..i];
    if i >= 2 {
      assert head[i - 2] != '/';
      assert !AllSlashes(head);
      assert head[..i - 1] == d[..i - 1];
      assert RStripSlashes(head) == RStripSlashes(head[..i - 1]);
    } else {
      assert head == "/";
    }
  }

  /** dirname undoes join: joining a canonical directory with one relative path segment and
      taking the dirname gives the directory back, so each glob pattern of find_all is
      matched inside the directory being scanned. */
  lemma DirnameOfJoin(d: Path, name: string)
    requires Canonical(d) && name != [] && '/' !in name
    ensures Dirname(Join(d, name)) == d
  {
    var j := Join(d, name);
    var prefix := if d == "/" then d else d + "/";
    assert j == prefix + name;
    var i := AfterLastSlash(j);
    assert j[|prefix| - 1] == '/';
    assert forall k :: |prefix| <= k < |j| ==> j[k] == name[k - |prefix|];
    assert i == |prefix|;
    assert j[..i] == prefix;
    if d != "/" {
      assert d[|d| - 1] != '/';
      assert !AllSlashes(prefix) by {
        assert prefix[|d| - 1] != '/';
      }
      assert prefix[..|prefix| - 1] == d;
      assert RStripSlashes(prefix) == RStripSlashes(d);
    } else {
      assert AllSlashes(prefix);
    }
  }

  /** With the segment-wise check, the walk from any canonical directory within a canonical
      root ends at the root: find_all terminates and scans only directories below the root. */
  lemma {:induction false} WithinRootReachesRoot(d: Path, root: Path)
    requires Canonical(d) && Canonical(root) && WithinRoot(d, root)
    ensures WalkUp(d, root).reachesRoot
    ensures forall e :: e in WalkUp(d, root).dirs ==> WithinRoot(e, root) && e != root
    decreases |d|
  {
    if d != root {
      var a := AsDirectory(root);
      AsDirectoryOfCanonical(root);
      assert a <= d;
      assert d != "/";
      DirnameOfCanonical(d);
      var i := AfterLastSlash(d);
      assert d[|a| - 1] == '/';
      assert i >= |a|;
      var up := Dirname(d);
      if i == 1 {
        assert up == root;
      } else if i == |a| {
        assert up == d[..|a| - 1] == root;
      } else {
        assert a <= up;
      }
      WithinRootReachesRoot(up, root);
      WalkUpStep(d, root);
    }
  }

  /** The intended property of the start path check: with realpath yielding canonical paths,
      every start path the segment-wise setter stores leads find_all to the root. */
  lemma CheckedWithinRootReachesRoot(path: Path, root: Path, fs: FileSystem)
    requires Canonical(root) && Canonical(fs.realpath(path))
    requires CheckedStartPathWithinRoot(path, root, fs).Success?
    ensures WalkUp(CheckedStartPathWithinRoot(path, root, fs).value, root).reachesRoot
  {
    var p := fs.realpath(path);
    if p !in fs.dirs && p != "/" {
      DirnameOfCanonical(p);
    }
    WithinRootReachesRoot(CheckedStartPathWithinRoot(path, root, fs).value, root);
  }

  /** The setter as written accepts "/xy" under the root "/x" ("/x" is a string prefix of
      "/xy"), and the walk from "/xy" goes to "/" and stays there: it never meets "/x". */
  lemma PrefixCheckAdmitsSibling()
    ensures var fs := FileSystem(map[], {"/x", "/xy"}, {}, (p: Path) => p, (p: Path) => []);
      && CheckedStartPath("/xy", "/x", fs) == Success("/xy")
      && !WalkUp("/xy", "/x").reachesRoot
      && !CheckedStartPathWithinRoot("/xy", "/x", fs).Success?
  {
    assert AfterLastSlash("/xy") == 1 by {
      assert AfterLastSlash("/x") == 1 by {
        assert AfterLastSlash("/") == 1;
        assert "/x"[..1] == "/";
      }
      assert "/xy"[..2] == "/x";
    }
    assert Dirname("/xy") == "/" by {
      assert "/xy"[..1] == "/";
      assert AllSlashes("/");
    }
    assert Dirname("/") == "/" by {
      assert AllSlashes("/");
    }
    assert "/x" <= "/xy";
    assert !("/x/" <= "/xy");
  }
}
