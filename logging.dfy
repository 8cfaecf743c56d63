/**
 * `logging.Setup`: the level and format checks, and the `ReplaceAttr` hook
 * that shortens the source file path written with every log record.
 */
module Logging {
  import opened Wrappers
  import opened Text

  const ModuleCacheMarker: string := "/go/pkg/mod/"
  const BuildMarker: string := "/build/"

  /** The repository markers, tried in this order. */
  const RepoMarkers: seq<string> := ["/lana/", "/projects/lana/"]

  /** The path after the last occurrence of the first marker that occurs; `filepath.Base` if none does. */
  function AfterFirstMarker(p: string, markers: seq<string>): (r: string)
    ensures markers == [] ==> r == Base(p)
    ensures markers != [] && LastIndex(p, markers[0]).Some? ==>
      r == p[LastIndex(p, markers[0]).value + |markers[0]|..]
    ensures markers != [] && LastIndex(p, markers[0]).None? ==> r == AfterFirstMarker(p, markers[1..])
  {
    if markers == [] then Base(p)
    else
      var idx := LastIndex(p, markers[0]);
      if idx.Some? then p[idx.value + |markers[0]|..] else AfterFirstMarker(p, markers[1..])
  }

  /** A module path without its version: the text from the first '@' up to the next '/' removed. */
  function StripVersion(modPath: string): (r: string)
    ensures Index(modPath, "@").None? ==> r == modPath
    ensures var at := Index(modPath, "@");
      at.Some? && Index(modPath[at.value..], "/").None? ==> r == modPath
    ensures var at := Index(modPath, "@");
      at.Some? && Index(modPath[at.value..], "/").Some? ==>
        var slash := Index(modPath[at.value..], "/").value;
        r == modPath[..at.value] + modPath[at.value + slash..] && |r| < |modPath|
  {
    var at := Index(modPath, "@");
    if at.None? then modPath
    else
      var slash := Index(modPath[at.value..], "/");
      if slash.None? then modPath
      else
        assert modPath[at.value] == '@' && slash.value > 0 by {
          assert OccursAt(modPath, "@", at.value);
          assert OccursAt(modPath[at.value..], "/", slash.value);
          assert modPath[at.value..][0] == '@';
          assert modPath[at.value..][slash.value] == '/';
        }
        modPath[..at.value] + modPath[at.value + slash.value..]
  }

  /**
   * The file name `ReplaceAttr` writes for a source path: below the Go
   * module cache, the module path without its version; below a build
   * directory, the path inside it; otherwise the path inside the
   * repository, or the base name.
   */
  function CleanPath(p: string): (r: string)
    ensures Index(p, ModuleCacheMarker).Some? ==>
      r == StripVersion(p[Index(p, ModuleCacheMarker).value + |ModuleCacheMarker|..])
    ensures Index(p, ModuleCacheMarker).None? && Index(p, BuildMarker).Some? ==>
      r == p[Index(p, BuildMarker).value + |BuildMarker|..]
    ensures Index(p, ModuleCacheMarker).None? && Index(p, BuildMarker).None? ==>
      r == AfterFirstMarker(p, RepoMarkers)
  {
    var mod := Index(p, ModuleCacheMarker);
    if mod.Some? then StripVersion(p[mod.value + |ModuleCacheMarker|..])
    else
      var build := Index(p, BuildMarker);
      if build.Some? then p[build.value + |BuildMarker|..]
      else AfterFirstMarker(p, RepoMarkers)
  }

  /**
   * "/projects/lana/" is never the marker used: every path containing it
   * also contains "/lana/", which is tried first and found, so the second
   * marker is never reached and changes no result.
   */
  lemma SecondMarkerRedundant(p: string)
    ensures AfterFirstMarker(p, RepoMarkers) == AfterFirstMarker(p, ["/lana/"])
  {
    var long := "/projects/lana/";
    var short := "/lana/";
    assert RepoMarkers[0] == short && RepoMarkers[1..] == [long];
    var none: seq<string> := [];
    assert [short][1..] == none;
    if LastIndex(p, short).None? {
      if LastIndex(p, long).Some? {
        var j := LastIndex(p, long).value;
        assert OccursAt(p, long, j);
        assert p[j + 9..j + 15] == p[j..j + 15][9..15] == long[9..15] == short;
        assert OccursAt(p, short, j + 9);
        assert Contains(p, short);
      }
      var none: seq<string> := [];
      assert [long][1..] == none;
    }
  }

  /** The markers used when the module-cache and build markers are absent: only "/lana/" can decide. */
  lemma RepoPathCleaning(p: string)
    requires Index(p, ModuleCacheMarker).None? && Index(p, BuildMarker).None?
    ensures LastIndex(p, "/lana/").Some? ==> CleanPath(p) == p[LastIndex(p, "/lana/").value + 6..]
    ensures LastIndex(p, "/lana/").None? ==> CleanPath(p) == Base(p)
  {
    SecondMarkerRedundant(p);
    var none: seq<string> := [];
    assert ["/lana/"][1..] == none;
  }

  /** `slog.Source`, which the handler passes by pointer and the hook rewrites in place. */
  class Source {
    var file: string
    var line: int
    var func: string

    constructor (file: string, line: int, func: string)
      ensures this.file == file && this.line == line && this.func == func
    {
      this.file, this.line, this.func := file, line, func;
    }
  }

  /**
   * The source case of `ReplaceAttr`: `source.File` is replaced by its
   * cleaned form, trying the repository markers in a loop that stops at the
   * first one found.
   */
  method RewriteSource(source: Source)
    modifies source
    ensures source.file == CleanPath(old(source.file))
    ensures source.line == old(source.line) && source.func == old(source.func)
  {
    var fullPath := source.file;
    var file: string;
    var mod := Index(fullPath, ModuleCacheMarker);
    if mod.Some? {
      file := ModulePath(fullPath[mod.value + |ModuleCacheMarker|..]);
    } else {
      var build := Index(fullPath, BuildMarker);
      if build.Some? {
        file := fullPath[build.value + |BuildMarker|..];
      } else {
        file := RepoRelative(fullPath);
      }
    }
    source.file := file;
  }

  /** The module-cache case: the version after '@' is cut up to the next '/'. */
  method ModulePath(path: string) returns (modPath: string)
    ensures modPath == StripVersion(path)
  {
    modPath := path;
    var atIdx := Index(modPath, "@");
    if atIdx.Some? {
      var slashIdx := Index(modPath[atIdx.value..], "/");
      if slashIdx.Some? {
        modPath := modPath[..atIdx.value] + modPath[atIdx.value + slashIdx.value..];
      }
    }
  }

  /** The marker loop of the source case: the first repository marker found decides. */
  method RepoRelative(fullPath: string) returns (file: string)
    ensures file == AfterFirstMarker(fullPath, RepoMarkers)
  {
    var parts := RepoMarkers;
    var cleaned := false;
    var i := 0;
    file := fullPath;
    while i < |parts|
      invariant 0 <= i <= |parts|
      invariant !cleaned
      invariant AfterFirstMarker(fullPath, parts[i..]) == AfterFirstMarker(fullPath, parts)
    {
      var idx := LastIndex(fullPath, parts[i]);
      if idx.Some? {
        file := fullPath[idx.value + |parts[i]|..];
        cleaned := true;
        break;
      }
      assert parts[i..][1..] == parts[i + 1..];
      i := i + 1;
    }
    if !cleaned {
      file := Base(fullPath);
    }
  }

  /** An attribute value, as far as the hook looks at it. */
  datatype Value =
    | TimeValue(unixNanos: int)
    | StringValue(s: string)
    | SourceValue(source: Source)
    | OtherValue(text: string)

  datatype Attr = Attr(key: string, value: Value)

  /**
   * `ReplaceAttr(groups, a)`: the time becomes a UTC timestamp string
   * (`formatUTC` stands for its formatting), the source has its file
   * cleaned, and every other attribute is returned unchanged. None stands
   * for the panic of reading a time or source attribute of another kind.
   */
  method ReplaceAttr(groups: seq<string>, a: Attr, formatUTC: int -> string) returns (r: Option<Attr>)
    modifies if a.key == "source" && a.value.SourceValue? then {a.value.source} else {}
    ensures a.key != "time" && a.key != "source" ==> r == Some(a)
    ensures a.key == "time" ==>
      r == if a.value.TimeValue? then Some(Attr("time", StringValue(formatUTC(a.value.unixNanos)))) else None
    ensures a.key == "source" ==> (r.Some? <==> a.value.SourceValue?)
    ensures a.key == "source" && a.value.SourceValue? ==>
      r == Some(a) && a.value.source.file == CleanPath(old(a.value.source.file)) &&
      a.value.source.line == old(a.value.source.line)
  {
    if a.key == "time" {
      if !a.value.TimeValue? {
        return None;
      }
      return Some(Attr(a.key, StringValue(formatUTC(a.value.unixNanos))));
    } else if a.key == "source" {
      if !a.value.SourceValue? {
        return None;
      }
      RewriteSource(a.value.source);
      return Some(Attr("source", a.value));
    }
    r := Some(a);
  }

  /** The handler `Setup` installs. */
  datatype HandlerKind = JsonHandler | TextHandler | ConsoleHandler

  /** What `Setup` ends in: a panic with its message, or the level and handler installed. */
  datatype SetupOutcome = Panicked(message: string) | Installed(level: int, handler: HandlerKind)

  /**
   * `Setup(level, format, env)`. `unmarshalLevel` stands for
   * `slog.Level.UnmarshalText` (the level, or its error). The level is
   * checked first, then the format, case-insensitively; text output goes to
   * the console handler in development.
   */
  function Setup(level: string, format: string, env: string, unmarshalLevel: string -> Result<int, string>): (o: SetupOutcome)
    ensures unmarshalLevel(level).Err? ==> o == Panicked(unmarshalLevel(level).error)
    ensures unmarshalLevel(level).Ok? && ToLowerAscii(format) != "json" && ToLowerAscii(format) != "text" ==>
      o == Panicked("invalid format")
    ensures o.Installed? ==> o.level == unmarshalLevel(level).value
    ensures o.Installed? ==>
      (o.handler == JsonHandler <==> ToLowerAscii(format) == "json") &&
      (o.handler == ConsoleHandler <==> ToLowerAscii(format) == "text" && env == "development")
  {
    var l := unmarshalLevel(level);
    if l.Err? then Panicked(l.error)
    else
      var f := ToLowerAscii(format);
      if f == "json" then Installed(l.value, JsonHandler)
      else if f == "text" then Installed(l.value, if env == "development" then ConsoleHandler else TextHandler)
      else Panicked("invalid format")
  }

  /** The format is case-insensitive: two formats that agree up to the case of letters select the same handler. */
  lemma FormatCaseInsensitive(level: string, f1: string, f2: string, env: string,
                              unmarshalLevel: string -> Result<int, string>)
    requires ToLowerAscii(f1) == ToLowerAscii(f2)
    ensures Setup(level, f1, env, unmarshalLevel) == Setup(level, f2, env, unmarshalLevel)
  {
  }
}
