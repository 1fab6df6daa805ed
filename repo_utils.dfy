/**
 * The OpenAPI scan of a repository checkout (`openapi_definition`) with its fingerprint
 * cache in Redis, and the module path of a provider's Git API (`get_scm_module`).
 *
 * The filesystem, md5, the prance parser and the JSON codec are parameters (`Toolkit`);
 * an exception is represented by its class name.
 */
module RepoUtils {
  import opened Wrappers
  import opened Strings
  import opened Json

  /** Directory names that exclude a path when they occur anywhere in it. */
  const OpenapiScanExclude: seq<string> := ["k8s", "test", ".gitlab", ".github"]
  /** Cached in place of a document for a file known not to parse. */
  const OpenapiInvalidMarker: string := "invalid"
  /** Seconds a fingerprint stays in the cache (about a year). */
  const OpenapiFingerprintMaxAge: nat := 360 * 24 * 60 * 60
  /** The extensions globbed, in scan order. */
  const Extensions: seq<string> := ["json", "yml", "yaml"]

  /** Exceptions `_parse_file` turns into `None`. */
  const ParseErrors: seq<string> := [
    "AssertionError", "AttributeError", "ComposerError", "FileNotFoundError", "ResolutionError",
    "ScannerError", "UnicodeDecodeError", "ValidationError", "ParseError", "TypeError"
  ]
  /** Download failures after which the scan returns an empty list. */
  const DownloadErrors: seq<string> := [
    "FileExistsError", "PermissionError", "MissingFilesError", "RepositoryNotFoundError"
  ]

  /** A file of the checkout: its full path as the glob yields it, and its text. */
  datatype File = File(path: string, content: string)

  /** Where the files come from: a given `repo_path`, or a download that may fail. */
  datatype Checkout =
    | Given(files: seq<File>)
    | Downloaded(outcome: Result<seq<File>, string>)

  /** The external functions the scan calls. */
  datatype Toolkit = Toolkit(
    md5Hex: string -> string,
    parser: File -> Result<Json, string>,
    dumps: Json -> string,
    loads: string -> Result<Json, string>)

  /** A cache value and the expiry it was written with. */
  datatype Entry = Entry(value: string, expiry: nat)

  /** The Redis connection: a key/value store written in place. */
  class Redis {
    var store: map<string, Entry>

    constructor (store: map<string, Entry>)
      ensures this.store == store
    {
      this.store := store;
    }

    /** `GET key`: the value, or `None` for a missing key. */
    function Get(key: string): (r: Option<string>)
      reads this
      ensures r.Some? <==> key in store
      ensures r.Some? ==> r.value == store[key].value
    {
      if key in store then Some(store[key].value) else None
    }

    /** `SET key value EX expiry`. */
    method Set(key: string, value: string, expiry: nat)
      modifies this
      ensures store == old(store)[key := Entry(value, expiry)]
    {
      store := store[key := Entry(value, expiry)];
    }
  }

  /** `directory in str(path)` for some excluded directory. */
  predicate Excluded(path: string) {
    exists d :: d in OpenapiScanExclude && OccursIn(d, path)
  }

  /** Exclusion is a plain substring test: an excluded name sitting anywhere in the path. */
  lemma {:induction false} ExcludedIsSubstring(path: string)
    ensures Excluded(path) <==> exists d, i :: d in OpenapiScanExclude && SliceAt(d, path, i)
  {
    forall d | d in OpenapiScanExclude
      ensures OccursIn(d, path) <==> exists i :: SliceAt(d, path, i)
    {
      OccursInAt(d, path);
    }
  }

  /** A directory merely containing `test` in its name, such as `latest`, excludes its files. */
  lemma {:induction false} LatestDirectoryIsExcluded()
    ensures Excluded("docs/latest/openapi.yaml")
  {
    var p := "docs/latest/openapi.yaml";
    assert p[7..11] == "test";
    assert SliceAt("test", p, 7);
    OccursInAt("test", p);
  }

  /** `f"{ext}-{md5(content).hexdigest()}"`. */
  function Fingerprint(ext: string, content: string, md5Hex: string -> string): (r: string)
    ensures |r| == |ext| + 1 + |md5Hex(content)|
    ensures r[..|ext|] == ext && r[|ext|] == '-'
  {
    ext + "-" + md5Hex(content)
  }

  /** The same text under two different scanned extensions never shares a cache slot. */
  lemma {:induction false} FingerprintsSeparateExtensions(e1: string, e2: string, c1: string, c2: string, md5Hex: string -> string)
    requires e1 in Extensions && e2 in Extensions && e1 != e2
    ensures Fingerprint(e1, c1, md5Hex) != Fingerprint(e2, c2, md5Hex)
  {
    var f1, f2 := Fingerprint(e1, c1, md5Hex), Fingerprint(e2, c2, md5Hex);
    if (e1 == "yml" && e2 == "yaml") || (e1 == "yaml" && e2 == "yml") {
      assert f1[1] != f2[1];
    } else {
      assert f1[0] != f2[0];
    }
  }

  /** Under one extension, equal fingerprints mean equal content hashes. */
  lemma {:induction false} FingerprintDeterminesHash(ext: string, c1: string, c2: string, md5Hex: string -> string)
    requires Fingerprint(ext, c1, md5Hex) == Fingerprint(ext, c2, md5Hex)
    ensures md5Hex(c1) == md5Hex(c2)
  {
    var f := Fingerprint(ext, c1, md5Hex);
    assert f[|ext| + 1..] == md5Hex(c1);
    assert Fingerprint(ext, c2, md5Hex)[|ext| + 1..] == md5Hex(c2);
  }

  /** The recursive glob of `repo_path` for `*.ext`: the files whose path ends in `.ext`, in walk order. */
  function Glob(files: seq<File>, ext: string): (r: seq<File>)
    ensures forall f :: f in r <==> f in files && EndsWith(f.path, "." + ext)
  {
    if files == [] then []
    else
      var n := |files| - 1;
      assert files == files[..n] + [files[n]];
      Glob(files[..n], ext) + (if EndsWith(files[n].path, "." + ext) then [files[n]] else [])
  }

  /** `_parse_file`: the parsed document, `None` for a listed parse error, any other error raised. */
  function ParseFile(parser: File -> Result<Json, string>, f: File): (r: Result<Json, string>)
    ensures r.Failure? <==> parser(f).Failure? && parser(f).error !in ParseErrors
    ensures r.Success? && parser(f).Failure? ==> r.value == Null
    ensures r.Success? && parser(f).Success? ==> r.value == parser(f).value
  {
    match parser(f)
    case Success(spec) => Success(spec)
    case Failure(e) => if e in ParseErrors then Success(Null) else Failure(e)
  }

  /** `if specification := redis_conn.get(fingerprint)`: present and not empty. */
  predicate Hit(cache: map<string, Entry>, key: string) {
    key in cache && cache[key].value != ""
  }

  /**
   * The scan so far: `specs` appended, the cache, the paths handed to the parser and the
   * exception that stopped the scan, if any.
   */
  datatype Scan = Scan(specs: seq<Json>, cache: map<string, Entry>, parsed: seq<string>, raised: Option<string>)

  /** One file of the glob for `ext`. */
  function ScanFile(s: Scan, ext: string, f: File, tk: Toolkit): Scan {
    if s.raised.Some? || Excluded(f.path) then s
    else
      var key := Fingerprint(ext, f.content, tk.md5Hex);
      if Hit(s.cache, key) then
        var cached := s.cache[key].value;
        if cached == OpenapiInvalidMarker then s
        else
          match tk.loads(cached)
          case Success(spec) => s.(specs := s.specs + [spec])
          case Failure(e) => s.(raised := Some(e))
      else
        match ParseFile(tk.parser, f)
        case Failure(e) => s.(parsed := s.parsed + [f.path], raised := Some(e))
        case Success(spec) =>
          var stored := if Truthy(spec) then tk.dumps(spec) else OpenapiInvalidMarker;
          Scan(s.specs + [spec], s.cache[key := Entry(stored, OpenapiFingerprintMaxAge)], s.parsed + [f.path], None)
  }

  /** The files of one glob, in order. */
  function ScanFiles(s: Scan, ext: string, fs: seq<File>, tk: Toolkit): Scan {
    if fs == [] then s
    else ScanFile(ScanFiles(s, ext, fs[..|fs| - 1], tk), ext, fs[|fs| - 1], tk)
  }

  /** The globs of `exts`, in order. */
  function ScanExtensions(s: Scan, exts: seq<string>, files: seq<File>, tk: Toolkit): Scan {
    if exts == [] then s
    else
      var ext := exts[|exts| - 1];
      ScanFiles(ScanExtensions(s, exts[..|exts| - 1], files, tk), ext, Glob(files, ext), tk)
  }

  /** What a call returns, the cache it leaves and the paths it parsed. */
  datatype Outcome = Outcome(result: Result<seq<Json>, string>, cache: map<string, Entry>, parsed: seq<string>)

  /** `openapi_definition(repository, repo_path=...)` started on the cache `cache`. */
  function Definition(checkout: Checkout, cache: map<string, Entry>, tk: Toolkit): (r: Outcome)
    ensures checkout.Downloaded? && checkout.outcome.Failure? ==>
      && r.cache == cache
      && r.parsed == []
      && (r.result.Success? <==> checkout.outcome.error in DownloadErrors)
      && (r.result.Success? ==> r.result.value == [])
    ensures r.result.Success? ==> forall spec :: spec in r.result.value ==> Truthy(spec)
  {
    if checkout.Downloaded? && checkout.outcome.Failure? then
      var e := checkout.outcome.error;
      Outcome(if e in DownloadErrors then Success([]) else Failure(e), cache, [])
    else
      var files := if checkout.Given? then checkout.files else checkout.outcome.value;
      var s := ScanExtensions(Scan([], cache, [], None), Extensions, files, tk);
      Outcome(if s.raised.Some? then Failure(s.raised.value) else Success(TruthyOnly(s.specs)), s.cache, s.parsed)
  }

  /** A cache hit parses nothing and writes nothing; it contributes the cached document unless it is the marker. */
  lemma {:induction false} CacheHitParsesNothing(s: Scan, ext: string, f: File, tk: Toolkit)
    requires s.raised.None? && !Excluded(f.path)
    requires Hit(s.cache, Fingerprint(ext, f.content, tk.md5Hex))
    ensures var key := Fingerprint(ext, f.content, tk.md5Hex);
      var t := ScanFile(s, ext, f, tk);
      && t.parsed == s.parsed
      && t.cache == s.cache
      && (s.cache[key].value == OpenapiInvalidMarker ==> t == s)
      && (s.cache[key].value != OpenapiInvalidMarker && tk.loads(s.cache[key].value).Success? ==>
            t.specs == s.specs + [tk.loads(s.cache[key].value).value])
  {
  }

  /** A miss parses the file, appends the result and caches its JSON, or the marker when it is falsy. */
  lemma {:induction false} CacheMissParsesAndStores(s: Scan, ext: string, f: File, tk: Toolkit)
    requires s.raised.None? && !Excluded(f.path)
    requires !Hit(s.cache, Fingerprint(ext, f.content, tk.md5Hex))
    requires ParseFile(tk.parser, f).Success?
    ensures var key := Fingerprint(ext, f.content, tk.md5Hex);
      var spec := ParseFile(tk.parser, f).value;
      var t := ScanFile(s, ext, f, tk);
      && t.parsed == s.parsed + [f.path]
      && t.specs == s.specs + [spec]
      && key in t.cache
      && t.cache[key] == Entry(if Truthy(spec) then tk.dumps(spec) else OpenapiInvalidMarker, OpenapiFingerprintMaxAge)
      && (forall k :: k in s.cache && k != key ==> k in t.cache && t.cache[k] == s.cache[k])
  {
  }

  /** Extensions are scanned json, then yml, then yaml, each glob to the end before the next. */
  lemma {:induction false} ScanOrder(s: Scan, files: seq<File>, tk: Toolkit)
    ensures ScanExtensions(s, Extensions, files, tk)
      == ScanFiles(ScanFiles(ScanFiles(s, "json", Glob(files, "json"), tk), "yml", Glob(files, "yml"), tk), "yaml", Glob(files, "yaml"), tk)
  {
    assert Extensions[..2][..1] == ["json"];
    assert Extensions[..2] == ["json", "yml"];
    assert ScanExtensions(s, ["json"], files, tk) == ScanFiles(s, "json", Glob(files, "json"), tk);
  }

  /** A checkout whose every file is excluded scans nothing: no parse, no cache write, an empty list. */
  lemma {:induction false} AllExcludedScansNothing(files: seq<File>, cache: map<string, Entry>, tk: Toolkit)
    requires forall f :: f in files ==> Excluded(f.path)
    ensures Definition(Given(files), cache, tk) == Outcome(Success([]), cache, [])
  {
    ExcludedExtensionsScanNothing(Scan([], cache, [], None), Extensions, files, tk);
  }

  lemma {:induction false} ExcludedFilesScanNothing(s: Scan, ext: string, fs: seq<File>, tk: Toolkit)
    requires forall f :: f in fs ==> Excluded(f.path)
    ensures ScanFiles(s, ext, fs, tk) == s
  {
    if fs != [] {
      var n := |fs| - 1;
      assert fs[n] in fs;
      ExcludedFilesScanNothing(s, ext, fs[..n], tk);
    }
  }

  /** Once an exception is raised, the rest of a glob changes nothing. */
  lemma {:induction false} RaisedStays(s: Scan, ext: string, fs: seq<File>, tk: Toolkit, j: nat)
    requires j <= |fs|
    requires ScanFiles(s, ext, fs[..j], tk).raised.Some?
    ensures ScanFiles(s, ext, fs, tk) == ScanFiles(s, ext, fs[..j], tk)
    decreases |fs|
  {
    if j < |fs| {
      var n := |fs| - 1;
      assert fs[..n][..j] == fs[..j];
      RaisedStays(s, ext, fs[..n], tk, j);
    } else {
      assert fs[..j] == fs;
    }
  }

  lemma {:induction false} RaisedStaysFiles(s: Scan, ext: string, fs: seq<File>, tk: Toolkit)
    requires s.raised.Some?
    ensures ScanFiles(s, ext, fs, tk) == s
  {
    if fs != [] {
      RaisedStaysFiles(s, ext, fs[..|fs| - 1], tk);
    }
  }

  /** Scanning `a + b` is scanning `a`, then `b`. */
  lemma {:induction false} ScanExtensionsAppend(s: Scan, a: seq<string>, b: seq<string>, files: seq<File>, tk: Toolkit)
    ensures ScanExtensions(s, a + b, files, tk) == ScanExtensions(ScanExtensions(s, a, files, tk), b, files, tk)
    decreases |b|
  {
    if b == [] {
      assert a + b == a;
    } else {
      var n := |b| - 1;
      assert (a + b)[..|a + b| - 1] == a + b[..n];
      assert (a + b)[|a + b| - 1] == b[n];
      ScanExtensionsAppend(s, a, b[..n], files, tk);
    }
  }

  /** Once an exception is raised, the remaining extensions change nothing. */
  lemma {:induction false} RaisedStaysExtensions(s: Scan, exts: seq<string>, files: seq<File>, tk: Toolkit)
    requires s.raised.Some?
    ensures ScanExtensions(s, exts, files, tk) == s
  {
    if exts != [] {
      var n := |exts| - 1;
      RaisedStaysExtensions(s, exts[..n], files, tk);
      RaisedStaysFiles(s, exts[n], Glob(files, exts[n]), tk);
    }
  }

  /** With every file excluded, no extension's glob changes the scan. */
  lemma {:induction false} ExcludedExtensionsScanNothing(s: Scan, exts: seq<string>, files: seq<File>, tk: Toolkit)
    requires forall f :: f in files ==> Excluded(f.path)
    ensures ScanExtensions(s, exts, files, tk) == s
  {
    if exts != [] {
      var n := |exts| - 1;
      ExcludedExtensionsScanNothing(s, exts[..n], files, tk);
      ExcludedFilesScanNothing(s, exts[n], Glob(files, exts[n]), tk);
    }
  }

  /** One file of a glob: skip it, take it from the cache, or parse it and cache the result. */
  method ScanOne(redis: Redis, ext: string, f: File, tk: Toolkit, specs0: seq<Json>, ghost parsed0: seq<string>)
    returns (specs: seq<Json>, ghost parsed: seq<string>, raised: Option<string>)
    modifies redis
    ensures Scan(specs, redis.store, parsed, raised) == ScanFile(Scan(specs0, old(redis.store), parsed0, None), ext, f, tk)
  {
    specs, parsed, raised := specs0, parsed0, None;
    if Excluded(f.path) {
      return;
    }
    var key := Fingerprint(ext, f.content, tk.md5Hex);
    var cached := redis.Get(key);
    if cached.Some? && cached.value != "" {
      if cached.value != OpenapiInvalidMarker {
        var loaded := tk.loads(cached.value);
        if loaded.Failure? {
          raised := Some(loaded.error);
          return;
        }
        specs := specs + [loaded.value];
      }
    } else {
      parsed := parsed + [f.path];
      var outcome := ParseFile(tk.parser, f);
      if outcome.Failure? {
        raised := Some(outcome.error);
        return;
      }
      var spec := outcome.value;
      specs := specs + [spec];
      redis.Set(key, if Truthy(spec) then tk.dumps(spec) else OpenapiInvalidMarker, OpenapiFingerprintMaxAge);
    }
  }

  /** One extension's glob: the inner loop of `openapi_definition`. */
  method ScanPaths(redis: Redis, ext: string, paths: seq<File>, tk: Toolkit, specs0: seq<Json>, ghost parsed0: seq<string>)
    returns (specs: seq<Json>, ghost parsed: seq<string>, raised: Option<string>)
    modifies redis
    ensures Scan(specs, redis.store, parsed, raised) == ScanFiles(Scan(specs0, old(redis.store), parsed0, None), ext, paths, tk)
  {
    ghost var start := Scan(specs0, redis.store, parsed0, None);
    specs, parsed, raised := specs0, parsed0, None;
    for j := 0 to |paths|
      invariant raised.None?
      invariant ScanFiles(start, ext, paths[..j], tk) == Scan(specs, redis.store, parsed, None)
    {
      assert paths[..j + 1][..j] == paths[..j];
      specs, parsed, raised := ScanOne(redis, ext, paths[j], tk, specs, parsed);
      if raised.Some? {
        RaisedStays(start, ext, paths, tk, j + 1);
        return;
      }
    }
    assert paths[..|paths|] == paths;
  }

  /** The outer loop of `openapi_definition`: the json, yml and yaml globs in turn, stopping at the first exception. */
  method ScanAll(redis: Redis, files: seq<File>, tk: Toolkit)
    returns (specs: seq<Json>, ghost parsed: seq<string>, raised: Option<string>)
    modifies redis
    ensures Scan(specs, redis.store, parsed, raised) == ScanExtensions(Scan([], old(redis.store), [], None), Extensions, files, tk)
  {
    ghost var start := Scan([], redis.store, [], None);
    specs, parsed, raised := [], [], None;
    for i := 0 to |Extensions|
      invariant raised.None?
      invariant ScanExtensions(start, Extensions[..i], files, tk) == Scan(specs, redis.store, parsed, None)
    {
      var ext := Extensions[i];
      assert Extensions[..i + 1][..i] == Extensions[..i];
      specs, parsed, raised := ScanPaths(redis, ext, Glob(files, ext), tk, specs, parsed);
      if raised.Some? {
        ghost var stopped := Scan(specs, redis.store, parsed, raised);
        assert Extensions == Extensions[..i + 1] + Extensions[i + 1..];
        ScanExtensionsAppend(start, Extensions[..i + 1], Extensions[i + 1..], files, tk);
        RaisedStaysExtensions(stopped, Extensions[i + 1..], files, tk);
        return;
      }
    }
    assert Extensions[..|Extensions|] == Extensions;
  }

  /** `openapi_definition`: scan the checkout's json, yml and yaml files through the cache. */
  method OpenapiDefinition(checkout: Checkout, redis: Redis, tk: Toolkit)
    returns (r: Result<seq<Json>, string>, ghost parsed: seq<string>)
    modifies redis
    ensures Outcome(r, redis.store, parsed) == Definition(checkout, old(redis.store), tk)
  {
    var files: seq<File>;
    match checkout {
      case Given(fs) =>
        files := fs;
      case Downloaded(outcome) =>
        if outcome.Failure? {
          if outcome.error in DownloadErrors {
            return Success([]), [];
          }
          return Failure(outcome.error), [];
        }
        files := outcome.value;
    }
    var specs, raised;
    specs, parsed, raised := ScanAll(redis, files, tk);
    if raised.Some? {
      return Failure(raised.value), parsed;
    }
    r := Success(TruthyOnly(specs));
  }

  /** The codec as the scan relies on it: a truthy document dumps to a non-empty, non-marker string that loads back. */
  ghost predicate WellBehaved(tk: Toolkit) {
    forall spec :: Truthy(spec) ==>
      && tk.dumps(spec) != ""
      && tk.dumps(spec) != OpenapiInvalidMarker
      && tk.loads(tk.dumps(spec)) == Success(spec)
  }

  /** Every non-empty entry of `older` is still in `newer`, unchanged. */
  ghost predicate Stable(older: map<string, Entry>, newer: map<string, Entry>) {
    forall k :: Hit(older, k) ==> k in newer && newer[k] == older[k]
  }

  /** A scan only writes fingerprints that missed, so it never overwrites a hit. */
  lemma {:induction false} ScanFileStable(s: Scan, ext: string, f: File, tk: Toolkit)
    ensures Stable(s.cache, ScanFile(s, ext, f, tk).cache)
  {
  }

  /** Replaying a file that hit the first time: it hits again on the same entry. */
  lemma {:induction false} RescanOnHit(a: Scan, b: Scan, ext: string, f: File, tk: Toolkit, final: map<string, Entry>)
    requires a.raised.None? && b.raised.None? && b.cache == final
    requires TruthyOnly(a.specs) == TruthyOnly(b.specs)
    requires !Excluded(f.path) && Hit(a.cache, Fingerprint(ext, f.content, tk.md5Hex))
    requires ScanFile(a, ext, f, tk).raised.None?
    requires Stable(ScanFile(a, ext, f, tk).cache, final)
    ensures var a1, b1 := ScanFile(a, ext, f, tk), ScanFile(b, ext, f, tk);
      && b1.raised.None? && b1.cache == final && b1.parsed == b.parsed
      && TruthyOnly(b1.specs) == TruthyOnly(a1.specs)
  {
    var key := Fingerprint(ext, f.content, tk.md5Hex);
    assert ScanFile(a, ext, f, tk).cache == a.cache;
    assert final[key] == a.cache[key];
    if a.cache[key].value != OpenapiInvalidMarker {
      var spec := tk.loads(a.cache[key].value).value;
      TruthyOnlyAppend(a.specs, [spec]);
      TruthyOnlyAppend(b.specs, [spec]);
    }
  }

  /** Replaying a file that missed the first time: it hits the entry the first scan stored. */
  lemma {:induction false} RescanOnMiss(a: Scan, b: Scan, ext: string, f: File, tk: Toolkit, final: map<string, Entry>)
    requires WellBehaved(tk)
    requires a.raised.None? && b.raised.None? && b.cache == final
    requires TruthyOnly(a.specs) == TruthyOnly(b.specs)
    requires !Excluded(f.path) && !Hit(a.cache, Fingerprint(ext, f.content, tk.md5Hex))
    requires ScanFile(a, ext, f, tk).raised.None?
    requires Stable(ScanFile(a, ext, f, tk).cache, final)
    ensures var a1, b1 := ScanFile(a, ext, f, tk), ScanFile(b, ext, f, tk);
      && b1.raised.None? && b1.cache == final && b1.parsed == b.parsed
      && TruthyOnly(b1.specs) == TruthyOnly(a1.specs)
  {
    var key := Fingerprint(ext, f.content, tk.md5Hex);
    var spec := ParseFile(tk.parser, f).value;
    var stored := if Truthy(spec) then tk.dumps(spec) else OpenapiInvalidMarker;
    var a1 := ScanFile(a, ext, f, tk);
    assert a1 == Scan(a.specs + [spec], a.cache[key := Entry(stored, OpenapiFingerprintMaxAge)], a.parsed + [f.path], None);
    assert Hit(a1.cache, key);
    assert final[key] == Entry(stored, OpenapiFingerprintMaxAge);
    TruthyOnlyAppend(a.specs, [spec]);
    if Truthy(spec) {
      TruthyOnlyAppend(b.specs, [spec]);
    } else {
      assert TruthyOnly([spec]) == [];
    }
  }

  /** Replaying one file against the final cache: a hit, no write, no parse, the same truthy specs. */
  lemma {:induction false} RescanFile(a: Scan, b: Scan, ext: string, f: File, tk: Toolkit, final: map<string, Entry>)
    requires WellBehaved(tk)
    requires a.raised.None? && b.raised.None? && b.cache == final
    requires TruthyOnly(a.specs) == TruthyOnly(b.specs)
    requires ScanFile(a, ext, f, tk).raised.None?
    requires Stable(ScanFile(a, ext, f, tk).cache, final)
    ensures var a1, b1 := ScanFile(a, ext, f, tk), ScanFile(b, ext, f, tk);
      && b1.raised.None? && b1.cache == final && b1.parsed == b.parsed
      && TruthyOnly(b1.specs) == TruthyOnly(a1.specs)
  {
    if !Excluded(f.path) {
      if Hit(a.cache, Fingerprint(ext, f.content, tk.md5Hex)) {
        RescanOnHit(a, b, ext, f, tk, final);
      } else {
        RescanOnMiss(a, b, ext, f, tk, final);
      }
    }
  }

  /** Replaying one glob against the final cache. */
  lemma {:induction false} RescanFiles(a: Scan, b: Scan, ext: string, fs: seq<File>, tk: Toolkit, final: map<string, Entry>)
    requires WellBehaved(tk)
    requires a.raised.None? && b.raised.None? && b.cache == final
    requires TruthyOnly(a.specs) == TruthyOnly(b.specs)
    requires ScanFiles(a, ext, fs, tk).raised.None?
    requires Stable(ScanFiles(a, ext, fs, tk).cache, final)
    ensures var a1, b1 := ScanFiles(a, ext, fs, tk), ScanFiles(b, ext, fs, tk);
      && b1.raised.None? && b1.cache == final && b1.parsed == b.parsed
      && TruthyOnly(b1.specs) == TruthyOnly(a1.specs)
  {
    if fs != [] {
      var n := |fs| - 1;
      var a0 := ScanFiles(a, ext, fs[..n], tk);
      assert a0.raised.None?;
      ScanFileStable(a0, ext, fs[n], tk);
      assert Stable(a0.cache, final);
      RescanFiles(a, b, ext, fs[..n], tk, final);
      RescanFile(a0, ScanFiles(b, ext, fs[..n], tk), ext, fs[n], tk, final);
    }
  }

  /** A glob's scan keeps every hit it starts with. */
  lemma {:induction false} ScanFilesStable(s: Scan, ext: string, fs: seq<File>, tk: Toolkit)
    ensures Stable(s.cache, ScanFiles(s, ext, fs, tk).cache)
  {
    if fs != [] {
      var n := |fs| - 1;
      ScanFilesStable(s, ext, fs[..n], tk);
      ScanFileStable(ScanFiles(s, ext, fs[..n], tk), ext, fs[n], tk);
    }
  }

  /** Replaying the globs of several extensions against the final cache. */
  lemma {:induction false} RescanExtensions(a: Scan, b: Scan, exts: seq<string>, files: seq<File>, tk: Toolkit, final: map<string, Entry>)
    requires WellBehaved(tk)
    requires a.raised.None? && b.raised.None? && b.cache == final
    requires TruthyOnly(a.specs) == TruthyOnly(b.specs)
    requires ScanExtensions(a, exts, files, tk).raised.None?
    requires Stable(ScanExtensions(a, exts, files, tk).cache, final)
    ensures var a1, b1 := ScanExtensions(a, exts, files, tk), ScanExtensions(b, exts, files, tk);
      && b1.raised.None? && b1.cache == final && b1.parsed == b.parsed
      && TruthyOnly(b1.specs) == TruthyOnly(a1.specs)
  {
    if exts != [] {
      var n := |exts| - 1;
      var paths := Glob(files, exts[n]);
      var a0 := ScanExtensions(a, exts[..n], files, tk);
      if a0.raised.Some? {
        RaisedStaysFiles(a0, exts[n], paths, tk);
      }
      ScanFilesStable(a0, exts[n], paths, tk);
      assert Stable(a0.cache, final);
      RescanExtensions(a, b, exts[..n], files, tk, final);
      RescanFiles(a0, ScanExtensions(b, exts[..n], files, tk), exts[n], paths, tk, final);
    }
  }

  /**
   * Scanning the same files again with the cache a successful scan left behind parses
   * nothing, writes nothing and returns the same documents.
   */
  lemma {:induction false} RescanIsCached(files: seq<File>, cache: map<string, Entry>, tk: Toolkit)
    requires WellBehaved(tk)
    requires Definition(Given(files), cache, tk).result.Success?
    ensures var first := Definition(Given(files), cache, tk);
      Definition(Given(files), first.cache, tk) == Outcome(first.result, first.cache, [])
  {
    var s := ScanExtensions(Scan([], cache, [], None), Extensions, files, tk);
    RescanExtensions(Scan([], cache, [], None), Scan([], s.cache, [], None), Extensions, files, tk, s.cache);
  }

  /**
   * `importlib.import_module(f".{provider}", current_module)` where `current_module` drops
   * the last dotted component of `module`: the name that gets imported, or the `TypeError`
   * a relative import raises when that package is empty (a name without a dot, or one
   * whose only dot leads). `provider` is a `Provider` value: non-empty, without a leading dot.
   */
  function ScmModule(moduleName: string, provider: string): (r: Result<string, string>)
    requires provider != "" && provider[0] != '.'
    ensures var parts := Split(moduleName, '.');
      r.Failure? <==> |parts| == 1 || (|parts| == 2 && parts[0] == "")
    ensures r.Failure? ==> r.error == "TypeError"
  {
    var parts := Split(moduleName, '.');
    var package := Join(parts[..|parts| - 1], '.');
    if package == "" then Failure("TypeError")
    else Success(package + "." + provider)
  }

  /** Splitting at a separator splits the two sides independently. */
  lemma {:induction false} SplitConcat(x: string, y: string, sep: char)
    ensures Split(x + [sep] + y, sep) == Split(x, sep) + Split(y, sep)
    decreases |x|
  {
    if x == [] {
      assert x + [sep] + y == [sep] + y;
      SplitCons(sep, y, sep);
    } else {
      SplitConcat(x[1..], y, sep);
      SplitConcatCons(x, y, sep);
    }
  }

  /** The inductive step of `SplitConcat`: from the tail of `x` to `x`. */
  lemma {:induction false} SplitConcatCons(x: string, y: string, sep: char)
    requires x != []
    requires Split(x[1..] + [sep] + y, sep) == Split(x[1..], sep) + Split(y, sep)
    ensures Split(x + [sep] + y, sep) == Split(x, sep) + Split(y, sep)
  {
    var c, t := x[0], x[1..];
    assert x + [sep] + y == [c] + (t + [sep] + y);
    assert x == [c] + t;
    SplitCons(c, t + [sep] + y, sep);
    SplitCons(c, t, sep);
    PrependCharAppend(c, sep, Split(t, sep), Split(y, sep));
  }

  /** The parts of `[c] + s`, given the parts of `s`. */
  ghost function PrependChar(c: char, sep: char, rest: seq<string>): seq<string>
    requires |rest| >= 1
  {
    if c == sep then [""] + rest else [[c] + rest[0]] + rest[1..]
  }

  /** Splitting a string with a known first character. */
  lemma {:induction false} SplitCons(c: char, s: string, sep: char)
    ensures Split([c] + s, sep) == PrependChar(c, sep, Split(s, sep))
  {
    assert ([c] + s)[1..] == s;
  }

  /** Prepending a character commutes with appending more parts. */
  lemma {:induction false} PrependCharAppend(c: char, sep: char, r: seq<string>, ry: seq<string>)
    requires |r| >= 1
    ensures PrependChar(c, sep, r + ry) == PrependChar(c, sep, r) + ry
  {
    assert (r + ry)[0] == r[0];
    assert (r + ry)[1..] == r[1..] + ry;
    if c == sep {
      assert ([""] + r) + ry == [""] + (r + ry);
    }
  }

  /** A string without the separator is its own single part. */
  lemma {:induction false} SplitWithoutSeparator(s: string, sep: char)
    requires sep !in s
    ensures Split(s, sep) == [s]
    decreases |s|
  {
    if s != [] {
      assert sep !in s[1..];
      SplitWithoutSeparator(s[1..], sep);
      assert s == [s[0]] + s[1..];
    }
  }

  /** The provider module is a sibling of this one: same package, provider as the last component. */
  lemma {:induction false} ScmModuleIsSibling(package: string, leaf: string, provider: string)
    requires provider != "" && provider[0] != '.'
    requires package != "" && '.' !in leaf
    ensures ScmModule(package + "." + leaf, provider) == Success(package + "." + provider)
  {
    var moduleName := package + "." + leaf;
    assert moduleName == package + ['.'] + leaf;
    SplitConcat(package, leaf, '.');
    SplitWithoutSeparator(leaf, '.');
    var parts := Split(moduleName, '.');
    assert parts[..|parts| - 1] == Split(package, '.');
    JoinSplit(package, '.');
  }

  /** A module at the top level, with or without a leading dot, has no package to import from. */
  lemma {:induction false} ScmModuleNeedsPackage(leaf: string, provider: string)
    requires provider != "" && provider[0] != '.'
    requires '.' !in leaf
    ensures ScmModule(leaf, provider) == Failure("TypeError")
    ensures ScmModule("." + leaf, provider) == Failure("TypeError")
  {
    SplitWithoutSeparator(leaf, '.');
    assert "." + leaf == "" + ['.'] + leaf;
    SplitConcat("", leaf, '.');
    SplitWithoutSeparator("", '.');
  }
}
