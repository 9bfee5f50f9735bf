/**
 * The scanner manager: a registry of the two scanners, selection of a scanner for a
 * framework key (detected when the key is `auto`, falling back to the universal scanner
 * for any key without a scanner), and the scan that runs the selected scanner and gives
 * its result the `{ routes, dtos }` shape.
 * The working directory, the manifests found on disk and the scanners' glob answers are
 * parameters, gathered in an `Environment`.
 */
module ScannerManagement {
  import opened Wrappers
  import opened Dict
  import opened Model
  import opened Dedup
  import opened NestRules
  import opened FrameworkDetection
  import opened UniversalScanning
  import opened EnhancedNestJS

  /** The registered scanner classes. */
  datatype ScannerKind = Universal | EnhancedNestJSKind

  /** `selectedScanner.constructor.name`: the universal scanner's class is `SimpleScanner`. */
  function ScannerName(kind: ScannerKind): (name: string)
    ensures name in ["SimpleScanner", "EnhancedNestJSScanner"]
  {
    match kind
    case Universal => "SimpleScanner"
    case EnhancedNestJSKind => "EnhancedNestJSScanner"
  }

  /** What the outside world answers during a scan. */
  datatype Environment = Environment(
    cwd: string,                        // process.cwd()
    manifests: map<string, Manifest>,   // package.json found in a directory; absent: Missing
    srcDir: string,                     // the universal scanner's findSrcDir answer
    globbed: seq<seq<string>>,          // its five glob answers
    rootFiles: seq<string>,             // its root `*.js` glob answer
    controllerFiles: seq<SourceFile>,   // the annotation scanner's controller glob answer
    dtoFiles: seq<SourceFile>,          // its DTO glob answer
    fs: FileSystem)

  function ManifestAt(env: Environment, dir: string): Manifest {
    if dir in env.manifests then env.manifests[dir] else Missing
  }

  /** `detectFramework(projectPath)`. */
  function DetectFramework(projectPath: string, env: Environment): string {
    Detect(ManifestAt(env, projectPath))
  }

  /** `projectPath || process.cwd()`. */
  function ProjectDir(projectPath: string, env: Environment): (dir: string)
    ensures projectPath != "" ==> dir == projectPath
  {
    if projectPath != "" then projectPath else env.cwd
  }

  /** The registry after `registerScanners`, in registration order. */
  function Registry(): (d: Dict<ScannerKind>)
    ensures d.Valid()
  {
    Empty<ScannerKind>().Set("universal", Universal).Set("nestjs-enhanced", EnhancedNestJSKind)
  }

  /** What a scanner's `scan` returned: a bare routes array, or an object whose fields may
      be missing. */
  datatype RawResult =
    | RoutesArray(routes: seq<Route>)
    | ResultObject(fields: (Option<seq<Route>>, Option<Dict<Dto>>))

  /** The shape normalisation: an array is wrapped with an empty DTO map; a missing field of
      an object is filled, a present one kept. */
  function Normalize(raw: RawResult): (r: ScanResult)
    ensures raw.RoutesArray? ==> r == ScanResult(raw.routes, Empty())
    ensures raw.ResultObject? && raw.fields.0.Some? ==> r.routes == raw.fields.0.value
    ensures raw.ResultObject? && raw.fields.0.None? ==> r.routes == []
    ensures raw.ResultObject? && raw.fields.1.Some? ==> r.dtos == raw.fields.1.value
    ensures raw.ResultObject? && raw.fields.1.None? ==> r.dtos == Empty()
  {
    match raw
    case RoutesArray(routes) => ScanResult(routes, Empty())
    case ResultObject((routes, dtos)) => ScanResult(routes.GetOr([]), dtos.GetOr(Empty()))
  }

  /** The routes a fresh universal scanner returns for the project in `dir`. */
  function UniversalRoutes(env: Environment, dir: string): seq<Route> {
    Unique(FilesRoutes(FileList(env.srcDir, Some(dir), env.globbed, env.rootFiles),
                       DetectFramework(dir, env), env.fs), MethodPathFileKey, {})
  }

  /** The `{ routes, dtos }` a fresh annotation scanner returns. */
  function EnhancedResult(env: Environment): ScanResult {
    var controllers := ControllersAfter(map[], env.controllerFiles, env.fs);
    ScanResult(Unique(RoutesOfFiles(env.controllerFiles, env.fs, controllers), MethodPathKey, {}),
               DtosAfter(Empty(), env.dtoFiles, env.fs))
  }

  /** What `scan` returns besides the echoed options. */
  datatype ScanReport = ScanReport(framework: string, scanner: string, results: ScanResult)

  class ScannerManager {
    var scanners: Dict<ScannerKind>

    ghost predicate Valid()
      reads this
    {
      scanners == Registry()
    }

    constructor ()
      ensures Valid()
    {
      scanners := Empty();
      new;
      RegisterScanners();
    }

    /** `registerScanners`: `universal`, then `nestjs-enhanced`. */
    method RegisterScanners()
      modifies this`scanners
      ensures scanners == old(scanners).Set("universal", Universal).Set("nestjs-enhanced", EnhancedNestJSKind)
    {
      scanners := scanners.Set("universal", Universal);
      scanners := scanners.Set("nestjs-enhanced", EnhancedNestJSKind);
    }

    /** `getScanner`: the registered scanner for the key (the framework detected in the
        working directory when the key is `auto`), else the universal scanner. */
    function GetScanner(framework: string, env: Environment): (kind: ScannerKind)
      reads this
      ensures var key := if framework == "auto" then DetectFramework(env.cwd, env) else framework;
        (scanners.Has(key) ==> kind == scanners.Get(key)) &&
        (!scanners.Has(key) ==> kind == Universal)
    {
      var selected := if framework == "auto" then DetectFramework(env.cwd, env) else framework;
      if scanners.Has(selected) then scanners.Get(selected) else Universal
    }

    /** `listAvailableScanners`: the keys in registration order. */
    function ListAvailableScanners(): (names: seq<string>)
      reads this
      requires Valid()
      ensures names == ["universal", "nestjs-enhanced"]
    {
      scanners.order
    }

    /** `getScannerInfo`: `null` for an unregistered key; neither scanner class declares a
        description or capabilities, so the defaults are used. */
    function GetScannerInfo(framework: string): (info: Option<(string, string, seq<string>)>)
      reads this
      ensures info.None? <==> !scanners.Has(framework)
      ensures info.Some? ==> info.value == (framework, "Scanner for " + framework + " framework", [])
    {
      if scanners.Has(framework) then Some((framework, "Scanner for " + framework + " framework", []))
      else None
    }

    /** `scan`: runs the selected scanner on `projectPath || cwd`, normalises its result and
        reports the framework, detected on that project when the key is `auto`. */
    method Scan(projectPath: string, framework: string, env: Environment) returns (report: ScanReport)
      requires Valid()
      ensures var dir := ProjectDir(projectPath, env);
        var kind := GetScanner(framework, env);
        report.framework == (if framework == "auto" then DetectFramework(dir, env) else framework) &&
        report.scanner == ScannerName(kind) &&
        report.results == (if kind == Universal then ScanResult(UniversalRoutes(env, dir), Empty())
                           else EnhancedResult(env))
    {
      var kind := GetScanner(framework, env);
      var dir := ProjectDir(projectPath, env);
      var raw: RawResult;
      if kind == Universal {
        raw := RunUniversal(dir, env);
      } else {
        raw := RunEnhanced(env);
      }
      var results := Normalize(raw);
      var reported := if framework == "auto" then DetectFramework(dir, env) else framework;
      report := ScanReport(reported, ScannerName(kind), results);
    }
  }

  /** A fresh universal scanner on the project in `dir`: a bare routes array. */
  method RunUniversal(dir: string, env: Environment) returns (raw: RawResult)
    ensures raw == RoutesArray(UniversalRoutes(env, dir))
  {
    var scanner := new SimpleScanner();
    var routes := scanner.Scan(dir, env.srcDir, ManifestAt(env, dir), env.globbed, env.rootFiles, env.fs);
    assert [] + FilesRoutes(FileList(env.srcDir, Some(dir), env.globbed, env.rootFiles),
                            DetectFramework(dir, env), env.fs)
        == FilesRoutes(FileList(env.srcDir, Some(dir), env.globbed, env.rootFiles),
                       DetectFramework(dir, env), env.fs);
    raw := RoutesArray(routes);
  }

  /** A fresh annotation scanner: an object with both fields. */
  method RunEnhanced(env: Environment) returns (raw: RawResult)
    ensures raw == ResultObject((Some(EnhancedResult(env).routes), Some(EnhancedResult(env).dtos)))
  {
    var scanner := new EnhancedNestJSScanner();
    var result := scanner.Scan(env.controllerFiles, env.dtoFiles, env.fs);
    assert [] + RoutesOfFiles(env.controllerFiles, env.fs, scanner.controllers)
        == RoutesOfFiles(env.controllerFiles, env.fs, scanner.controllers);
    raw := ResultObject((Some(result.routes), Some(result.dtos)));
  }

  /** The registry holds exactly `universal` and `nestjs-enhanced`. */
  lemma RegistryExact()
    ensures Registry().order == ["universal", "nestjs-enhanced"]
    ensures forall k :: Registry().Has(k) <==> k == "universal" || k == "nestjs-enhanced"
    ensures Registry().Get("universal") == Universal
    ensures Registry().Get("nestjs-enhanced") == EnhancedNestJSKind
  {
  }

  /** Any key other than the two registered ones selects the universal scanner. */
  lemma FallbackUniversal(m: ScannerManager, framework: string, env: Environment)
    requires m.Valid()
    requires framework != "auto" && framework != "nestjs-enhanced"
    ensures m.GetScanner(framework, env) == Universal
  {
    RegistryExact();
  }

  /** `auto` selects by the detector, which never answers a scanner key, so it always selects
      the universal scanner, even for a NestJS project. */
  lemma AutoSelectsUniversal(m: ScannerManager, env: Environment)
    requires m.Valid()
    ensures m.GetScanner("auto", env) == Universal
  {
    RegistryExact();
    DetectNeverScannerKey(ManifestAt(env, env.cwd));
  }

  /** Only the explicit key `nestjs-enhanced` selects the annotation scanner. */
  lemma EnhancedOnlyByName(m: ScannerManager, framework: string, env: Environment)
    requires m.Valid()
    ensures m.GetScanner(framework, env) == EnhancedNestJSKind <==> framework == "nestjs-enhanced"
  {
    RegistryExact();
    DetectNeverScannerKey(ManifestAt(env, env.cwd));
  }

  /** Selection detects in the working directory while the report detects in the project
      directory, so with `auto` the two can disagree. */
  lemma AutoReportsProjectFramework(m: ScannerManager, env: Environment, projectPath: string)
    requires m.Valid()
    requires projectPath != "" && env.cwd != projectPath
    requires env.manifests == map[projectPath := Parsed(Package(map["@nestjs/core" := true], map[], map[], map[], None, "", ""))]
    ensures DetectFramework(ProjectDir(projectPath, env), env) == "nestjs"
    ensures DetectFramework(env.cwd, env) == "generic"
    ensures m.GetScanner("auto", env) == Universal
  {
    var pkg := Package(map["@nestjs/core" := true], map[], map[], map[], None, "", "");
    assert MergedDependencies(pkg) == map["@nestjs/core" := true];
    NestjsCoreAlone(pkg);
    AutoSelectsUniversal(m, env);
  }

  /** Both scanners return every field, so normalisation keeps their results as they are;
      normalising a normalised result changes nothing. */
  lemma NormalizeKeepsComplete(routes: seq<Route>, dtos: Dict<Dto>)
    ensures Normalize(ResultObject((Some(routes), Some(dtos)))) == ScanResult(routes, dtos)
    ensures Normalize(RoutesArray(routes)) == Normalize(ResultObject((Some(routes), None)))
  {
  }
}
