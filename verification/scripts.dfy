/** The DEV build's script server (server/handle-script.go): it compiles the
    play or frizz front end on demand, serves the JavaScript, and keeps the
    source map of the last build of each package in a process-wide cache that
    the following `.js.map` request reads. */
module Scripts {
  import opened Wrappers
  import opened Strings
  import opened Pages

  const DevOnly := "script only available in dev mode"
  const SourceMapTrailer := "//# sourceMappingURL=_script.js.map\n"

  /** The import path of the page's front end; no path for the other pages. */
  function FrontEnd(page: PageType): (path: string)
    ensures page == PlayPage ==> path == "github.com/dave/play"
    ensures page == FrizzPage ==> path == "github.com/dave/frizz"
    ensures page != PlayPage && page != FrizzPage ==> path == ""
  {
    match page
    case PlayPage => "github.com/dave/play"
    case FrizzPage => "github.com/dave/frizz"
    case _ => ""
  }

  /** The build tags: `jsgo` and `dev`, then `local` in the LOCAL build. */
  function BuildTags(local: bool): (tags: seq<string>)
    ensures |tags| == if local then 3 else 2
    ensures tags[..2] == ["jsgo", "dev"]
    ensures local ==> tags[2] == "local"
  {
    ["jsgo", "dev"] + if local then ["local"] else []
  }

  /** A request for the compiled package. */
  predicate IsPkg(urlPath: string) {
    HasSuffix(urlPath, ".js")
  }

  /** A request for its source map. */
  predicate IsMap(urlPath: string) {
    HasSuffix(urlPath, ".js.map")
  }

  /** No request is both: a name ending in ".js.map" ends in "map", not ".js". */
  lemma PkgAndMapExclusive(urlPath: string)
    ensures !(IsPkg(urlPath) && IsMap(urlPath))
  {
    if IsMap(urlPath) {
      assert urlPath[|urlPath| - 1] == 'p';
    }
  }

  /** A package build: the program code and its source map, or the error of
      building, resolving dependencies or writing the code. */
  datatype BuildOutcome = Built(code: string, sourceMap: seq<char>) | BuildFailed(error: string)

  /** One request with what its collaborators answer: the host and URL path,
      the importer (the error of importing a path with some build tags, if
      any), and the build's outcome. */
  datatype Call = Call(
    host: string,
    urlPath: string,
    importer: (string, seq<string>) -> Option<string>,
    build: BuildOutcome)

  /** The path a DEV request's host selects. */
  function PathOf(c: Call): string {
    FrontEnd(GetPage(true, c.host))
  }

  /** The error of importing the request's front end with the build's tags. */
  function ImportError(local: bool, c: Call): Option<string> {
    c.importer(PathOf(c), BuildTags(local))
  }

  /** What the handler answers: an error status with its text, the compiled
      script, a source map, or an empty 200 when the URL names neither. */
  datatype Answer =
    | Status(code: int, text: string)
    | Script(body: string)
    | SourceMap(body: seq<char>)
    | Nothing

  /** The last source map built per package path (`lastMaps`). */
  type Cache = map<string, seq<char>>

  datatype Served = Served(answer: Answer, cache: Cache)

  /** `ScriptHandler` with `handleScript`, for one request. */
  function Handle(dev: bool, local: bool, cache: Cache, c: Call): (s: Served)
    ensures !dev ==> s == Served(Status(404, DevOnly), cache)
    ensures dev && ImportError(local, c).Some? ==> s == Served(Status(500, ImportError(local, c).value), cache)
    ensures dev && ImportError(local, c).None? && IsPkg(c.urlPath) && c.build.BuildFailed? ==>
      s == Served(Status(500, c.build.error), cache)
    ensures dev && ImportError(local, c).None? && IsPkg(c.urlPath) && c.build.Built? ==>
      s.answer == Script(c.build.code + SourceMapTrailer)
    ensures dev && ImportError(local, c).None? && IsMap(c.urlPath) ==>
      s == Served(SourceMap(if PathOf(c) in cache then cache[PathOf(c)] else []), cache)
    ensures s.answer.Script? ==> HasSuffix(s.answer.body, SourceMapTrailer)
    ensures s.cache != cache ==> s.answer.Script?
    ensures s.answer.Script? ==>
      c.build.Built? && s.cache == cache[PathOf(c) := c.build.sourceMap]
    ensures s.answer.SourceMap? ==> s.cache == cache
  {
    if !dev then Served(Status(404, DevOnly), cache)
    else
      var path := PathOf(c);
      PkgAndMapExclusive(c.urlPath);
      match c.importer(path, BuildTags(local))
      case Some(err) => Served(Status(500, err), cache)
      case None =>
        if IsPkg(c.urlPath) then
          match c.build
          case BuildFailed(err) => Served(Status(500, err), cache)
          case Built(code, sourceMap) =>
            var body := code + SourceMapTrailer;
            assert body[|body| - |SourceMapTrailer|..] == SourceMapTrailer;
            Served(Script(body), cache[path := sourceMap])
        else if IsMap(c.urlPath) then
          Served(SourceMap(if path in cache then cache[path] else []), cache)
        else
          Served(Nothing, cache)
  }

  /** A URL that names neither the package nor its map gets an empty answer,
      unless the front end fails to import. */
  lemma NeitherAnswersNothing(local: bool, cache: Cache, c: Call)
    requires !IsPkg(c.urlPath) && !IsMap(c.urlPath) && ImportError(local, c).None?
    ensures Handle(true, local, cache, c) == Served(Nothing, cache)
  {
  }

  /** A successful package build whose answer is the script stores its map. */
  predicate Stores(local: bool, c: Call, path: string) {
    && PathOf(c) == path
    && ImportError(local, c).None?
    && IsPkg(c.urlPath)
    && c.build.Built?
  }

  /** The map of the last call in `calls` that stored one for `path`. */
  function LastStored(local: bool, calls: seq<Call>, path: string): (r: Option<seq<char>>)
    ensures r.Some? ==> exists i :: 0 <= i < |calls| && Stores(local, calls[i], path) && calls[i].build.sourceMap == r.value
    ensures r.None? <==> forall i :: 0 <= i < |calls| ==> !Stores(local, calls[i], path)
    decreases |calls|
  {
    if |calls| == 0 then None
    else
      var last := calls[|calls| - 1];
      var before := calls[..|calls| - 1];
      if Stores(local, last, path) then Some(last.build.sourceMap)
      else
        var r := LastStored(local, before, path);
        assert forall i :: 0 <= i < |before| ==> before[i] == calls[i];
        r
  }

  /** The handler run over a sequence of requests in the DEV build: the
      answers and the cache afterwards. */
  function Run(local: bool, cache: Cache, calls: seq<Call>): (r: (seq<Answer>, Cache))
    ensures |r.0| == |calls|
    decreases |calls|
  {
    if |calls| == 0 then ([], cache)
    else
      var front := Run(local, cache, calls[..|calls| - 1]);
      var s := Handle(true, local, front.1, calls[|calls| - 1]);
      (front.0 + [s.answer], s.cache)
  }

  /** One request's effect on one package's cached map: a request that stores a
      map for it replaces its entry, any other leaves it as it was. */
  lemma HandleEntry(local: bool, cache: Cache, c: Call, path: string)
    ensures var after := Handle(true, local, cache, c).cache;
      if Stores(local, c, path) then path in after && after[path] == c.build.sourceMap
      else (path in after <==> path in cache) && (path in cache ==> after[path] == cache[path])
  {
    if ImportError(local, c).None? && IsPkg(c.urlPath) && c.build.Built? {
      PkgAndMapExclusive(c.urlPath);
    }
  }

  /** Last write wins: after any run, a package's cached map is the one of the
      last successful build of it, or the one cached before if there was none. */
  lemma {:induction false} CacheIsLastBuild(local: bool, cache: Cache, calls: seq<Call>, path: string)
    ensures var after := Run(local, cache, calls).1;
      match LastStored(local, calls, path)
      case Some(m) => path in after && after[path] == m
      case None => (path in after <==> path in cache) && (path in cache ==> after[path] == cache[path])
    decreases |calls|
  {
    if |calls| > 0 {
      var before := calls[..|calls| - 1];
      CacheIsLastBuild(local, cache, before, path);
      HandleEntry(local, Run(local, cache, before).1, calls[|calls| - 1], path);
    }
  }

  /** A map request serves the map of the last successful build of that
      package before it, or the cached one, or nothing. */
  lemma MapServesLastBuild(local: bool, cache: Cache, calls: seq<Call>, c: Call)
    requires IsMap(c.urlPath) && ImportError(local, c).None?
    ensures var path := PathOf(c);
      var answers := Run(local, cache, calls + [c]).0;
      answers[|calls|] == SourceMap(
        match LastStored(local, calls, path)
        case Some(m) => m
        case None => if path in cache then cache[path] else [])
  {
    var path := PathOf(c);
    PkgAndMapExclusive(c.urlPath);
    CacheIsLastBuild(local, cache, calls, path);
    assert (calls + [c])[..|calls|] == calls;
  }
}
