/** The resolver: the public entry point that asks the loader chain for a key, falls back
    to a default, rejects None and casts the result (prettyconf/configuration.py). */
module Configuration {
  import opened Base
  import opened Sources
  import opened Loaders

  /** What Configuration(loaders=...) is given: a Loaders, a list of loaders, or None. */
  datatype LoadersArg = Manager(manager: Loaders) | LoaderList(loaders: seq<Loader>) | NoLoaders

  function UnknownMessage(item: string): string {
    "Configuration '" + item + "' not found"
  }

  /** __call__ once the chain has answered `chain`: KeyError is replaced by the `default`
      keyword (None when it is absent); a None value, from the chain or from the default,
      raises UnknownConfiguration naming the item; any other exception passes through; a value
      is handed to `cast`. */
  function Resolve<T>(item: string, chain: Result<PyValue>, default: Option<PyValue>, cast: PyValue -> T)
    : (r: Result<T>)
    ensures r.Success? ==> exists v :: v != PyNone && r.value == cast(v) && (chain == Success(v) || default == Some(v))
    ensures r.Failure? ==> r.error == UnknownConfiguration(UnknownMessage(item)) || (chain.Failure? && r.error == chain.error)
    ensures chain.Success? && chain.value != PyNone ==> r == Success(cast(chain.value))
    ensures chain.Success? && chain.value == PyNone ==> r == Failure(UnknownConfiguration(UnknownMessage(item)))
    ensures IsMiss(chain) && default.Some? && default.value != PyNone ==> r == Success(cast(default.value))
    ensures IsMiss(chain) && (default.None? || default.value == PyNone)
            ==> r == Failure(UnknownConfiguration(UnknownMessage(item)))
    ensures chain.Failure? && !IsMiss(chain) ==> r == Failure(chain.error)
  {
    var config :=
      if chain.Success? then Success(chain.value)
      else if IsMiss(chain) then Success(if default.Some? then default.value else PyNone)
      else Failure(chain.error);
    if config.Failure? then Failure(config.error)
    else if config.value == PyNone then Failure(UnknownConfiguration(UnknownMessage(item)))
    else Success(cast(config.value))
  }

  /** Precedence end to end: when the loaders before position `i` miss and loader `i` finds
      a string, the resolver returns its cast, whatever the default and the later loaders hold. */
  lemma ResolvesFirstFound<T>(ls: seq<Loader>, caches: seq<map<string, string>>, i: nat, item: string,
                              source: SourceArg, world: World, default: Option<PyValue>, cast: PyValue -> T,
                              value: string)
    requires |caches| == |ls| && i < |ls|
    requires forall j :: 0 <= j < i ==> IsMiss(Answer(ls[j], caches[j], item, source, world).0)
    requires Answer(ls[i], caches[i], item, source, world).0 == Success(Text(value))
    ensures Resolve(item, ChainFrom(ls, caches, 0, item, source, world).0, default, cast) == Success(cast(Text(value)))
  {
    ChainReturnsFirstAnswer(ls, caches, 0, i, item, source, world);
  }

  /** Default on a miss: when every loader misses, the resolver returns the cast default, or
      raises UnknownConfiguration naming the item when the default is absent or None. */
  lemma ResolvesDefaultOnMiss<T>(ls: seq<Loader>, caches: seq<map<string, string>>, item: string,
                                 source: SourceArg, world: World, default: Option<PyValue>, cast: PyValue -> T)
    requires |caches| == |ls|
    requires forall j :: 0 <= j < |ls| ==> IsMiss(Answer(ls[j], caches[j], item, source, world).0)
    ensures var r := Resolve(item, ChainFrom(ls, caches, 0, item, source, world).0, default, cast);
      && (default.Some? && default.value != PyNone ==> r == Success(cast(default.value)))
      && (default.None? || default.value == PyNone ==> r == Failure(UnknownConfiguration(UnknownMessage(item))))
  {
    ChainExhausted(ls, caches, 0, item, source, world);
  }

  /** A None found by a loader (an INI option without a value) is not replaced by the
      default: the resolver raises UnknownConfiguration. */
  lemma FoundNoneIsUnknown<T>(ls: seq<Loader>, caches: seq<map<string, string>>, i: nat, item: string,
                              source: SourceArg, world: World, default: Option<PyValue>, cast: PyValue -> T)
    requires |caches| == |ls| && i < |ls|
    requires forall j :: 0 <= j < i ==> IsMiss(Answer(ls[j], caches[j], item, source, world).0)
    requires Answer(ls[i], caches[i], item, source, world).0 == Success(PyNone)
    ensures Resolve(item, ChainFrom(ls, caches, 0, item, source, world).0, default, cast)
            == Failure(UnknownConfiguration(UnknownMessage(item)))
  {
    ChainReturnsFirstAnswer(ls, caches, 0, i, item, source, world);
  }

  class Configuration {
    const loadersManager: Loaders

    /** Anything but a Loaders is wrapped in Loaders(...), so no argument gives the default
        chain of four fresh loaders. */
    constructor (loaders: LoadersArg, envFileParser: Stream -> Parsed)
      requires loaders.Manager? ==> loaders.manager.Valid()
      requires loaders.LoaderList? ==> Separate(loaders.loaders)
      ensures loaders.Manager? ==> loadersManager == loaders.manager
      ensures loaders.LoaderList? ==> loadersManager.loaders == loaders.loaders && fresh(loadersManager)
      ensures loaders.NoLoaders? ==> IsDefaultChain(loadersManager.loaders) && fresh(Objects(loadersManager.loaders))
      ensures loaders.NoLoaders? ==>
                loadersManager.loaders[1].environment.configs == map[] && loadersManager.loaders[2].envFile.configs == map[]
      ensures loaders.NoLoaders? ==> loadersManager.loaders[2].envFile.parser == envFileParser
      ensures loaders.NoLoaders? ==> forall s :: loadersManager.loaders[3].iniFile.varFormat(s) == s
      ensures loadersManager.Valid()
    {
      match loaders
      case Manager(m) =>
        loadersManager := m;
      case LoaderList(ls) =>
        loadersManager := new Loaders(Some(ls), envFileParser);
      case NoLoaders =>
        loadersManager := new Loaders(None, envFileParser);
    }

    /** __call__(item, cast, source, default=...): a cast that is not callable raises
        TypeError before any loader is asked; otherwise the chain is asked once and its answer
        resolved. `castIsCallable` stands for Python's callable(cast). */
    method Call<T>(item: string, cast: PyValue -> T, castIsCallable: bool, source: SourceArg,
                   default: Option<PyValue>, world: World) returns (r: Result<T>)
      requires loadersManager.Valid()
      modifies Objects(loadersManager.loaders)
      ensures !castIsCallable ==> r == Failure(TypeError(CastMessage))
      ensures !castIsCallable ==> Caches(loadersManager.loaders) == old(Caches(loadersManager.loaders))
      ensures castIsCallable ==>
                var out := ChainFrom(loadersManager.loaders, old(Caches(loadersManager.loaders)), 0, item, source, world);
                r == Resolve(item, out.0, default, cast) && Caches(loadersManager.loaders) == out.1
    {
      if !castIsCallable {
        return Failure(TypeError(CastMessage));
      }
      var config := loadersManager.GetConfig(item, source, world);
      if IsMiss(config) {
        config := Success(if default.Some? then default.value else PyNone);
      }
      if config.Failure? {
        return Failure(config.error);
      }
      if config.value == PyNone {
        return Failure(UnknownConfiguration(UnknownMessage(item)));
      }
      r := Success(cast(config.value));
    }
  }
}
