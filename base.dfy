/** Values and failures shared by the sources, the loaders and the resolver. */
module Base {

  datatype Option<+T> = None | Some(value: T)

  /** A Python call either returns a value or raises one of the exceptions in `Error`. */
  datatype Result<+T> = Success(value: T) | Failure(error: Error)

  /** A Python value as the resolver sees it. Loaders produce strings, and an INI option
      written without `=` yields None; a caller's `default` may be any object, which the
      resolver never inspects beyond `is None` (`Opaque` stands for such an object). */
  datatype PyValue = PyNone | Text(text: string) | Opaque(id: nat)

  /** The exceptions the core raises or lets through. */
  datatype Error =
    | KeyError(key: string)
    | TypeError(message: string)
    | AttributeError(attribute: string)
    | InvalidConfigurationFile(message: string)
    | UnknownConfiguration(message: string)
    | InvalidPath(message: string)
    | FileNotFound(message: string)

  /** The TypeError message of the loader guard: the source formats
      `self.source_type.__class__.__name__`, and the class of a class is `type`. */
  const SourceTypeMessage := "Source is not a type instance"
  const CastMessage := "Cast must be callable"

  /** `str.upper` restricted to ASCII letters; every other character is kept. */
  function Upper(s: string): (r: string)
    ensures |r| == |s|
    ensures forall i :: 0 <= i < |s| && 'a' <= s[i] <= 'z' ==> r[i] as int == s[i] as int - 32
    ensures forall i :: 0 <= i < |s| && !('a' <= s[i] <= 'z') ==> r[i] == s[i]
  {
    if s == [] then []
    else [if 'a' <= s[0] <= 'z' then (s[0] as int - 32) as char else s[0]] + Upper(s[1..])
  }

  /** `str.lower` restricted to ASCII letters; every other character is kept. */
  function Lower(s: string): (r: string)
    ensures |r| == |s|
    ensures forall i :: 0 <= i < |s| && 'A' <= s[i] <= 'Z' ==> r[i] as int == s[i] as int + 32
    ensures forall i :: 0 <= i < |s| && !('A' <= s[i] <= 'Z') ==> r[i] == s[i]
  {
    if s == [] then []
    else [if 'A' <= s[0] <= 'Z' then (s[0] as int + 32) as char else s[0]] + Lower(s[1..])
  }
}
