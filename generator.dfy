/**
 * `NewGenerator`: the generator for a report type, built from its
 * configuration (a decoded TOML table).
 */
module Generator {
  import opened Wrappers
  import opened Errors
  import opened Json
  import opened Strings
  import opened Files
  import opened ScanGenerator
  import opened ScanPrinter
  import opened LiveReportGenerator
  import opened Model

  /** A generator of one of the two report types. */
  datatype Generator = ForScan(scan: ScanGen) | ForLive(live: LiveGen)

  /** What building a generator may consult: the working directory, the files, the template parser and the security-overview library. */
  datatype GenEnv = GenEnv(
    wd: Result<string, Error>,
    readFile: string -> Result<string, Error>,
    /** `template.Parse` of the template text */
    compile: string -> Template,
    lib: SecOverview)

  /** mapstructure filling `scanGeneratorCfg` from the configuration table. */
  function DecodeScanCfg(config: Json): Result<ScanGeneratorCfg, Error>
  {
    if !IsStructLike(config) then Failure(JsonType(""))
    else
      match (DecodeString(Member(config, "printer_cfg_file"), "printer_cfg_file"),
             DecodeString(Member(config, "email_subject"), "email_subject"),
             DecodeString(Member(config, "output_dir"), "output_dir"),
             DecodeString(Member(config, "public_bucket"), "public_bucket"),
             DecodeString(Member(config, "private_bucket"), "private_bucket"))
      case (Success(p), Success(s), Success(o), Success(pub), Success(priv)) =>
        Success(ScanGeneratorCfg(p, s, o, pub, priv))
      case (Failure(e), _, _, _, _) => Failure(e)
      case (_, Failure(e), _, _, _) => Failure(e)
      case (_, _, Failure(e), _, _) => Failure(e)
      case (_, _, _, Failure(e), _) => Failure(e)
      case (_, _, _, _, Failure(e)) => Failure(e)
  }

  /** mapstructure filling `liveReportGeneratorCfg` from the configuration table. */
  function DecodeLiveCfg(config: Json): Result<LiveReportGeneratorCfg, Error>
  {
    if !IsStructLike(config) then Failure(JsonType(""))
    else
      match (DecodeString(Member(config, "email_subject"), "email_subject"),
             DecodeString(Member(config, "email_template_file"), "email_template_file"))
      case (Success(s), Success(f)) => Success(LiveReportGeneratorCfg(s, f))
      case (Failure(e), _) => Failure(e)
      case (_, Failure(e)) => Failure(e)
  }

  /** `getTeamplePath`: the template file, under the working directory when relative. */
  function TemplatePath(cfg: LiveReportGeneratorCfg, wd: Result<string, Error>): Result<string, Error>
  {
    if HasPrefix(cfg.emailTemplateFile, "/") then Success(JoinPath(["", cfg.emailTemplateFile]))
    else
      match wd
      case Failure(e) => Failure(e)
      case Success(w) => Success(JoinPath([w, cfg.emailTemplateFile]))
  }

  /** `newLiveReportGenerator`: the template is read and parsed once, when the generator is built. */
  function NewLiveReportGenerator(cfg: LiveReportGeneratorCfg, env: GenEnv): Result<LiveGen, Error>
  {
    match TemplatePath(cfg, env.wd)
    case Failure(e) => Failure(e)
    case Success(path) =>
      match env.readFile(path)
      case Failure(e) => Failure(e)
      case Success(text) => Success(LiveGen(cfg, env.compile(text)))
  }

  /** `NewGenerator`. */
  function NewGenerator(typ: string, config: Json, env: GenEnv): Result<Generator, Error>
  {
    if typ == ScanType then
      match DecodeScanCfg(config)
      case Failure(_) => Failure(InvalidConfiguration)
      case Success(cfg) => Success(ForScan(ScanGen(cfg, NewScanPrinter(cfg.printerCfgFile, env.lib))))
    else if typ == LiveReportType then
      match DecodeLiveCfg(config)
      case Failure(_) => Failure(InvalidConfiguration)
      case Success(cfg) =>
        match NewLiveReportGenerator(cfg, env)
        case Failure(e) => Failure(e)
        case Success(g) => Success(ForLive(g))
    else Failure(InvalidGeneratorType)
  }

  /**
   * The dispatch: a scan generator exactly for "scan" with a decodable
   * configuration, printing with the configured printer file; a live
   * report generator exactly for "livereport" with a decodable
   * configuration whose template loads; `ErrInvalidConfiguration` for an
   * undecodable configuration, the loading error when the template does
   * not load, and `ErrInvalidGeneratorType` for any other type.
   */
  lemma NewGeneratorDispatch(typ: string, config: Json, env: GenEnv)
    ensures var r := NewGenerator(typ, config, env);
      && (r.Success? && r.value.ForScan? <==> typ == ScanType && DecodeScanCfg(config).Success?)
      && (r.Success? && r.value.ForScan? ==>
            r.value.scan.cfg == DecodeScanCfg(config).value
            && r.value.scan.printer == NewScanPrinter(DecodeScanCfg(config).value.printerCfgFile, env.lib))
      && (r.Success? && r.value.ForLive? <==>
            typ == LiveReportType && DecodeLiveCfg(config).Success?
            && NewLiveReportGenerator(DecodeLiveCfg(config).value, env).Success?)
      && (r.Success? && r.value.ForLive? ==> r.value.live.cfg == DecodeLiveCfg(config).value)
      && (typ == ScanType && DecodeScanCfg(config).Failure? ==> r == Failure(InvalidConfiguration))
      && (typ == LiveReportType && DecodeLiveCfg(config).Failure? ==> r == Failure(InvalidConfiguration))
      && (typ == LiveReportType && DecodeLiveCfg(config).Success?
          && NewLiveReportGenerator(DecodeLiveCfg(config).value, env).Failure? ==>
            r == Failure(NewLiveReportGenerator(DecodeLiveCfg(config).value, env).error))
      && (typ != ScanType && typ != LiveReportType ==> r == Failure(InvalidGeneratorType))
  {
  }

  /** An empty configuration table is decodable and leaves every setting empty. */
  lemma EmptyConfigDecodes()
    ensures DecodeScanCfg(JObject(map[])) == Success(ScanGeneratorCfg("", "", "", "", ""))
    ensures DecodeLiveCfg(JNull) == Success(LiveReportGeneratorCfg("", ""))
    ensures DecodeScanCfg(JString("x")).Failure? && DecodeLiveCfg(JNumber(1)).Failure?
  {
  }
}
