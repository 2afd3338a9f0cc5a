/**
 * The scan report generator: it checks the request, has the printer produce
 * the report files and e-mail, collects the files written under the
 * report's public and private directories, and formats the e-mail subject.
 */
module ScanGenerator {
  import opened Wrappers
  import opened Errors
  import opened Strings
  import opened Model
  import opened Files
  import opened Processor

  /** The generator's configuration. */
  datatype ScanGeneratorCfg = ScanGeneratorCfg(
    printerCfgFile: string,
    emailSubject: string,
    outputDir: string,
    publicBucket: string,
    privateBucket: string)

  /** The data a scan report request carries. */
  datatype ScanRequest = ScanRequest(scanId: string, programName: string)

  /** What generating a scan report yields. */
  datatype ScanReportData = ScanReportData(
    reportUrl: string,
    reportJsonUrl: string,
    files: seq<FileInfo>,
    emailSubject: string,
    emailBody: Bytes,
    action: string,
    risk: int)

  /** The dynamically typed request value a generator is handed: a scan request, or a value of some other type. */
  datatype ReportData = ScanRequestData(req: ScanRequest) | OtherData

  /** The printer (the security-overview library), by its outcome. */
  type Printer = (TeamInfo, ScanRequest) -> Result<ScanReportData, Error>

  /** The process environment: the working directory and what each directory lists. */
  datatype Env = Env(wd: Result<string, Error>, listDir: string -> Listing)

  datatype ScanGen = ScanGen(cfg: ScanGeneratorCfg, printer: Printer)

  /** `parseScanReq`: a scan request with both scan id and program name. */
  function ParseScanReq(data: ReportData): (r: Result<ScanRequest, Error>)
    ensures r.Success? <==> data.ScanRequestData? && data.req.programName != "" && data.req.scanId != ""
    ensures r.Success? ==> r.value == data.req
    ensures r.Failure? ==> r.error == InvalidRequest
  {
    match data
    case ScanRequestData(req) =>
      if req.programName == "" || req.scanId == "" then Failure(InvalidRequest) else Success(req)
    case OtherData => Failure(InvalidRequest)
  }

  /** `emailSubjectFmt` = "[%s] %s - %s - %s". */
  function EmailSubject(action: string, subject: string, teamName: string, programName: string): string
  {
    "[" + action + "] " + subject + " - " + teamName + " - " + programName
  }

  /** `getReportDir`: the scan's directory under the output directory, made absolute with the working directory when relative. */
  function GetReportDir(cfg: ScanGeneratorCfg, wd: Result<string, Error>, scanId: string): Result<string, Error>
  {
    if HasPrefix(cfg.outputDir, "/") then Success(JoinPath(["", cfg.outputDir, scanId]))
    else
      match wd
      case Failure(e) => Failure(e)
      case Success(w) => Success(JoinPath([w, cfg.outputDir, scanId]))
  }

  /** An absolute output directory needs no working directory; a relative one is placed under it. */
  lemma ReportDirLayout(cfg: ScanGeneratorCfg, wd: Result<string, Error>, scanId: string)
    requires scanId != ""
    ensures HasPrefix(cfg.outputDir, "/") ==> GetReportDir(cfg, wd, scanId) == Success(PathJoin(cfg.outputDir, scanId))
    ensures !HasPrefix(cfg.outputDir, "/") && wd.Failure? ==> GetReportDir(cfg, wd, scanId) == Failure(wd.error)
    ensures !HasPrefix(cfg.outputDir, "/") && wd.Success? && wd.value != "" && cfg.outputDir != "" ==>
      GetReportDir(cfg, wd, scanId) == Success(PathJoin(PathJoin(wd.value, cfg.outputDir), scanId))
  {
    if cfg.outputDir != "" {
      var w := if wd.Success? && wd.value != "" then wd.value else "/";
      JoinPathTriple(w, cfg.outputDir, scanId);
    }
  }

  /** The file infos of `paths`, all under `dir`, bound for `bucket`. */
  function FInfoFiles(dir: string, bucket: string, paths: seq<string>): seq<FileInfo>
    requires forall p :: p in paths ==> HasPrefix(p, dir + "/")
  {
    if paths == [] then []
    else
      var f := paths[|paths| - 1];
      FInfoFiles(dir, bucket, paths[..|paths| - 1]) + [FileInfo(f, bucket, RelPath(dir, f))]
  }

  /**
   * One file info per path, in order: the path itself, the bucket, and the
   * path relative to `dir`, which joined back onto `dir` gives the path.
   */
  lemma {:induction false} FInfoFilesEntries(dir: string, bucket: string, paths: seq<string>)
    requires forall p :: p in paths ==> HasPrefix(p, dir + "/")
    ensures Destined(FInfoFiles(dir, bucket, paths), dir, bucket, paths)
  {
    if paths != [] {
      FInfoFilesEntries(dir, bucket, paths[..|paths| - 1]);
    }
  }

  /** What `buildFInfoFiles` returns: the walk's error, or the file infos of the walk. */
  function BuildFInfo(dir: string, bucket: string, listing: Listing): Result<seq<FileInfo>, Error>
  {
    match Flatten(dir, listing)
    case Failure(e) => Failure(e)
    case Success(paths) =>
      FlattenUnderDir(dir, listing);
      Success(FInfoFiles(dir, bucket, paths))
  }

  /** `buildFInfoFiles`: walk `dir` and turn each file found into its upload destination. */
  method BuildFInfoFiles(dir: string, bucket: string, listing: Listing) returns (r: Result<seq<FileInfo>, Error>)
    ensures r == BuildFInfo(dir, bucket, listing)
  {
    var filePaths := ListDirFiles(dir, listing);
    if filePaths.Failure? {
      return Failure(filePaths.error);
    }
    var paths := filePaths.value;
    FlattenUnderDir(dir, listing);
    var files: seq<FileInfo> := [];
    for i := 0 to |paths|
      invariant files == FInfoFiles(dir, bucket, paths[..i])
    {
      assert paths[..i + 1][..i] == paths[..i];
      var f := paths[i];
      var relPath := RelPath(dir, f);
      files := files + [FileInfo(f, bucket, relPath)];
    }
    assert paths[..|paths|] == paths;
    return Success(files);
  }

  /** What `getReportFiles` returns: the public directory's files, then the private directory's. */
  function ReportFiles(cfg: ScanGeneratorCfg, env: Env, scanId: string): Result<seq<FileInfo>, Error>
  {
    match GetReportDir(cfg, env.wd, scanId)
    case Failure(e) => Failure(e)
    case Success(reportDir) =>
      var publicDir := JoinPath([reportDir, cfg.publicBucket]);
      var privateDir := JoinPath([reportDir, cfg.privateBucket]);
      match BuildFInfo(publicDir, cfg.publicBucket, env.listDir(publicDir))
      case Failure(e) => Failure(e)
      case Success(publicFiles) =>
        match BuildFInfo(privateDir, cfg.privateBucket, env.listDir(privateDir))
        case Failure(e) => Failure(e)
        case Success(privateFiles) => Success(publicFiles + privateFiles)
  }

  method GetReportFiles(cfg: ScanGeneratorCfg, env: Env, scanId: string) returns (r: Result<seq<FileInfo>, Error>)
    ensures r == ReportFiles(cfg, env, scanId)
  {
    var reportDir := GetReportDir(cfg, env.wd, scanId);
    if reportDir.Failure? {
      return Failure(reportDir.error);
    }
    var files: seq<FileInfo> := [];

    // Public contents go to the public bucket.
    var publicDir := JoinPath([reportDir.value, cfg.publicBucket]);
    var publicFiles := BuildFInfoFiles(publicDir, cfg.publicBucket, env.listDir(publicDir));
    if publicFiles.Failure? {
      return Failure(publicFiles.error);
    }
    files := files + publicFiles.value;
    assert files == publicFiles.value;

    // Private contents go to the private bucket.
    var privateDir := JoinPath([reportDir.value, cfg.privateBucket]);
    var privateFiles := BuildFInfoFiles(privateDir, cfg.privateBucket, env.listDir(privateDir));
    if privateFiles.Failure? {
      return Failure(privateFiles.error);
    }
    files := files + privateFiles.value;
    return Success(files);
  }

  /** What `Generate` returns. */
  function GenerateSpec(g: ScanGen, env: Env, teamInfo: TeamInfo, reportData: ReportData): Result<ScanReportData, Error>
  {
    match ParseScanReq(reportData)
    case Failure(e) => Failure(e)
    case Success(scanReq) =>
      match g.printer(teamInfo, scanReq)
      case Failure(e) => Failure(e)
      case Success(data) =>
        match ReportFiles(g.cfg, env, scanReq.scanId)
        case Failure(e) => Failure(e)
        case Success(files) =>
          Success(data.(files := files,
                        emailSubject := EmailSubject(data.action, g.cfg.emailSubject, teamInfo.name, scanReq.programName)))
  }

  /** `scanGenerator.Generate`. */
  method Generate(g: ScanGen, env: Env, teamInfo: TeamInfo, reportData: ReportData) returns (r: Result<ScanReportData, Error>)
    ensures r == GenerateSpec(g, env, teamInfo, reportData)
  {
    var scanReq := ParseScanReq(reportData);
    if scanReq.Failure? {
      return Failure(scanReq.error);
    }
    var printed := g.printer(teamInfo, scanReq.value);
    if printed.Failure? {
      return Failure(printed.error);
    }
    var scanReportData := printed.value;
    var reportFiles := GetReportFiles(g.cfg, env, scanReq.value.scanId);
    if reportFiles.Failure? {
      return Failure(reportFiles.error);
    }
    scanReportData := scanReportData.(files := reportFiles.value);
    scanReportData := scanReportData.(emailSubject :=
      EmailSubject(scanReportData.action, g.cfg.emailSubject, teamInfo.name, scanReq.value.programName));
    return Success(scanReportData);
  }

  /** An invalid request is refused before the printer or the file system is consulted. */
  lemma InvalidRequestRefused(g: ScanGen, p: Printer, env: Env, env': Env, teamInfo: TeamInfo, reportData: ReportData)
    requires ParseScanReq(reportData).Failure?
    ensures GenerateSpec(g, env, teamInfo, reportData) == Failure(InvalidRequest)
    ensures GenerateSpec(g.(printer := p), env', teamInfo, reportData) == GenerateSpec(g, env, teamInfo, reportData)
  {
  }

  /** A printer error is returned unchanged. */
  lemma PrinterErrorReturned(g: ScanGen, env: Env, teamInfo: TeamInfo, req: ScanRequest)
    requires ParseScanReq(ScanRequestData(req)).Success?
    requires g.printer(teamInfo, req).Failure?
    ensures GenerateSpec(g, env, teamInfo, ScanRequestData(req)) == Failure(g.printer(teamInfo, req).error)
  {
  }

  /**
   * A generated report keeps the printer's URLs, body, action and risk;
   * its subject is "[action] subject - team - program"; its files are the
   * public directory's followed by the private directory's, whatever the
   * printer listed.
   */
  lemma GeneratedData(g: ScanGen, env: Env, teamInfo: TeamInfo, req: ScanRequest)
    requires GenerateSpec(g, env, teamInfo, ScanRequestData(req)).Success?
    ensures var r := GenerateSpec(g, env, teamInfo, ScanRequestData(req)).value;
      var printed := g.printer(teamInfo, req);
      && printed.Success?
      && r.reportUrl == printed.value.reportUrl && r.reportJsonUrl == printed.value.reportJsonUrl
      && r.emailBody == printed.value.emailBody && r.action == printed.value.action && r.risk == printed.value.risk
      && r.emailSubject == "[" + printed.value.action + "] " + g.cfg.emailSubject + " - " + teamInfo.name + " - " + req.programName
      && ReportFiles(g.cfg, env, req.scanId).Success?
      && r.files == ReportFiles(g.cfg, env, req.scanId).value
  {
  }

  /** `fs` are the file infos of `paths` under `dir`, bound for `bucket`, in order. */
  ghost predicate Destined(fs: seq<FileInfo>, dir: string, bucket: string, paths: seq<string>)
  {
    |fs| == |paths|
    && forall i :: 0 <= i < |paths| ==>
         fs[i].filePath == paths[i] && fs[i].destBucket == bucket && PathJoin(dir, fs[i].destPath) == paths[i]
  }

  /**
   * The files of a report: the public directory's files, each bound for
   * the public bucket, followed by the private directory's, each bound for
   * the private bucket; each destination path joined onto its directory
   * gives the local path.
   */
  lemma ReportFilesDestinations(cfg: ScanGeneratorCfg, env: Env, scanId: string)
    requires ReportFiles(cfg, env, scanId).Success?
    ensures var reportDir := GetReportDir(cfg, env.wd, scanId).value;
      var publicDir := JoinPath([reportDir, cfg.publicBucket]);
      var privateDir := JoinPath([reportDir, cfg.privateBucket]);
      var pub := Flatten(publicDir, env.listDir(publicDir));
      var priv := Flatten(privateDir, env.listDir(privateDir));
      var files := ReportFiles(cfg, env, scanId).value;
      && pub.Success? && priv.Success?
      && |files| == |pub.value| + |priv.value|
      && Destined(files[..|pub.value|], publicDir, cfg.publicBucket, pub.value)
      && Destined(files[|pub.value|..], privateDir, cfg.privateBucket, priv.value)
  {
    var reportDir := GetReportDir(cfg, env.wd, scanId).value;
    var publicDir := JoinPath([reportDir, cfg.publicBucket]);
    var privateDir := JoinPath([reportDir, cfg.privateBucket]);
    var pub := BuildFInfo(publicDir, cfg.publicBucket, env.listDir(publicDir)).value;
    var priv := BuildFInfo(privateDir, cfg.privateBucket, env.listDir(privateDir)).value;
    FlattenUnderDir(publicDir, env.listDir(publicDir));
    FlattenUnderDir(privateDir, env.listDir(privateDir));
    FInfoFilesEntries(publicDir, cfg.publicBucket, Flatten(publicDir, env.listDir(publicDir)).value);
    FInfoFilesEntries(privateDir, cfg.privateBucket, Flatten(privateDir, env.listDir(privateDir)).value);
    var files := ReportFiles(cfg, env, scanId).value;
    assert files == pub + priv;
    assert files[..|pub|] == pub && files[|pub|..] == priv;
  }
}
