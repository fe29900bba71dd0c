/**
 * The base name of a local file path (`Path(p).name` on POSIX paths): the
 * last `/`-separated component, after trailing separators are dropped.
 */
module Paths {

  const PathSeparator: char := '/'

  /** The path without its trailing separators. */
  function StripTrailingSeparators(path: string): (stem: string)
    ensures |stem| <= |path| && stem == path[..|stem|]
    ensures stem == [] || stem[|stem| - 1] != PathSeparator
    ensures forall i :: |stem| <= i < |path| ==> path[i] == PathSeparator
  {
    if path != [] && path[|path| - 1] == PathSeparator
    then StripTrailingSeparators(path[..|path| - 1])
    else path
  }

  /** The characters after the last separator. */
  function LastComponent(path: string): (name: string)
    ensures PathSeparator !in name
    ensures |name| <= |path| && path[|path| - |name|..] == name
    ensures |name| < |path| ==> path[|path| - |name| - 1] == PathSeparator
  {
    if path == [] || path[|path| - 1] == PathSeparator then []
    else LastComponent(path[..|path| - 1]) + [path[|path| - 1]]
  }

  /** `Path(path).name`. */
  function BaseName(path: string): (name: string)
    ensures PathSeparator !in name
  {
    LastComponent(StripTrailingSeparators(path))
  }

  /**
   * For a path that does not end in a separator, the base name is a suffix of
   * the path and is either the whole path or preceded by a separator.
   */
  lemma BaseNameSuffix(path: string)
    requires path == [] || path[|path| - 1] != PathSeparator
    ensures var name := BaseName(path);
      && |name| <= |path|
      && path == path[..|path| - |name|] + name
      && (|name| == |path| || path[|path| - |name| - 1] == PathSeparator)
  {
    var name := BaseName(path);
    assert StripTrailingSeparators(path) == path;
    assert path == path[..|path| - |name|] + path[|path| - |name|..];
  }

  /** A path without any separator is its own base name. */
  lemma BaseNameOfPlainName(path: string)
    requires PathSeparator !in path
    ensures BaseName(path) == path
  {
  }
}
