/**
 * The live report generator: it checks the request, fills the e-mail
 * template with the team's findings by severity, and formats the e-mail
 * subject. The template is given by what executing it yields.
 */
module LiveReportGenerator {
  import opened Wrappers
  import opened Errors
  import opened Strings
  import opened Processor

  /** The generator's configuration. */
  datatype LiveReportGeneratorCfg = LiveReportGeneratorCfg(emailSubject: string, emailTemplateFile: string)

  /** The data a live report request carries: finding counts by severity, new and fixed counts, the range and the link. */
  datatype LiveReportRequest = LiveReportRequest(
    teamId: string,
    info: int, low: int, medium: int, high: int, critical: int,
    infoDiff: int, lowDiff: int, mediumDiff: int, highDiff: int, criticalDiff: int,
    infoFixed: int, lowFixed: int, mediumFixed: int, highFixed: int, criticalFixed: int,
    dateFrom: string,
    dateTo: string,
    url: string)

  /** What generating a live report yields. */
  datatype LiveReportData = LiveReportData(emailSubject: string, emailBody: Bytes)

  /** The dynamically typed request value a generator is handed. */
  datatype ReportData = LiveRequestData(req: LiveReportRequest) | OtherData

  /** A row of the findings table. */
  datatype Severity = Severity(description: string, totalFindings: int, newFindings: int)

  /** A row of the fixed findings table. */
  datatype FixedFinding = FixedFinding(description: string, totalFixed: int)

  /** The value the e-mail template is executed on. */
  datatype EmailReport = EmailReport(
    startDate: string,
    endDate: string,
    linkToLiveReport: string,
    severities: seq<Severity>,
    fixedFindings: seq<FixedFinding>)

  /** The parsed e-mail template, by what executing it on a report yields. */
  type Template = EmailReport -> Result<Bytes, Error>

  datatype LiveGen = LiveGen(cfg: LiveReportGeneratorCfg, template: Template)

  /** The severities, most severe first. */
  const SeverityNames: seq<string> := ["Critical", "High", "Medium", "Low", "Informational"]

  /** The request's (total, new, fixed) counts for the severity at `rank` in `SeverityNames`. */
  function CountsAt(req: LiveReportRequest, rank: nat): (int, int, int)
    requires rank < 5
  {
    match rank
    case 0 => (req.critical, req.criticalDiff, req.criticalFixed)
    case 1 => (req.high, req.highDiff, req.highFixed)
    case 2 => (req.medium, req.mediumDiff, req.mediumFixed)
    case 3 => (req.low, req.lowDiff, req.lowFixed)
    case _ => (req.info, req.infoDiff, req.infoFixed)
  }

  /** `parseLiveReportReq`: a live report request with team id and both dates. */
  function ParseLiveReportReq(data: ReportData): (r: Result<LiveReportRequest, Error>)
    ensures r.Success? <==> data.LiveRequestData? && data.req.teamId != "" && data.req.dateFrom != "" && data.req.dateTo != ""
    ensures r.Success? ==> r.value == data.req
    ensures r.Failure? ==> r.error == InvalidRequest
  {
    match data
    case LiveRequestData(req) =>
      if req.teamId == "" || req.dateFrom == "" || req.dateTo == "" then Failure(InvalidRequest) else Success(req)
    case OtherData => Failure(InvalidRequest)
  }

  /** The report `Print` executes the template on. */
  function EmailReportOf(req: LiveReportRequest): EmailReport
  {
    EmailReport(
      req.dateFrom, req.dateTo, req.url,
      [ Severity("Critical", req.critical, req.criticalDiff),
        Severity("High", req.high, req.highDiff),
        Severity("Medium", req.medium, req.mediumDiff),
        Severity("Low", req.low, req.lowDiff),
        Severity("Informational", req.info, req.infoDiff) ],
      [ FixedFinding("Critical", req.criticalFixed),
        FixedFinding("High", req.highFixed),
        FixedFinding("Medium", req.mediumFixed),
        FixedFinding("Low", req.lowFixed),
        FixedFinding("Informational", req.infoFixed) ])
  }

  /**
   * The tables list the five severities from most to least severe, each
   * row with that severity's counts from the request; the dates and the
   * link are the request's.
   */
  lemma EmailReportRows(req: LiveReportRequest)
    ensures var r := EmailReportOf(req);
      && r.startDate == req.dateFrom && r.endDate == req.dateTo && r.linkToLiveReport == req.url
      && |r.severities| == 5 && |r.fixedFindings| == 5
      && forall i :: 0 <= i < 5 ==>
           && r.severities[i].description == SeverityNames[i]
           && r.fixedFindings[i].description == SeverityNames[i]
           && r.severities[i].totalFindings == CountsAt(req, i).0
           && r.severities[i].newFindings == CountsAt(req, i).1
           && r.fixedFindings[i].totalFixed == CountsAt(req, i).2
  {
  }

  /** `Print`: the template's output as the body, or empty data and the template's error. */
  function Print(g: LiveGen, teamInfo: TeamInfo, req: LiveReportRequest): (LiveReportData, Option<Error>)
  {
    match g.template(EmailReportOf(req))
    case Failure(e) => (LiveReportData("", []), Some(e))
    case Success(content) => (LiveReportData("", content), None)
  }

  /** `liveEmailSubjectFmt` = "%s - %s". */
  function EmailSubject(subject: string, teamName: string): string
  {
    subject + " - " + teamName
  }

  /** `liveReportGenerator.Generate`. */
  function Generate(g: LiveGen, teamInfo: TeamInfo, reportData: ReportData): Result<LiveReportData, Error>
  {
    match ParseLiveReportReq(reportData)
    case Failure(e) => Failure(e)
    case Success(req) =>
      var (data, err) := Print(g, teamInfo, req);
      if err.Some? then Failure(err.value)
      else Success(data.(emailSubject := EmailSubject(g.cfg.emailSubject, teamInfo.name)))
  }

  /** An invalid request is refused before the template is executed. */
  lemma InvalidRequestRefused(g: LiveGen, t: Template, teamInfo: TeamInfo, reportData: ReportData)
    requires ParseLiveReportReq(reportData).Failure?
    ensures Generate(g, teamInfo, reportData) == Failure(InvalidRequest)
    ensures Generate(g.(template := t), teamInfo, reportData) == Failure(InvalidRequest)
  {
  }

  /**
   * For a valid request, a template error is returned as is; otherwise
   * the body is the template's output on the request's tables and the
   * subject is "subject - team name".
   */
  lemma GeneratedData(g: LiveGen, teamInfo: TeamInfo, req: LiveReportRequest)
    requires req.teamId != "" && req.dateFrom != "" && req.dateTo != ""
    ensures var r := Generate(g, teamInfo, LiveRequestData(req));
      var out := g.template(EmailReportOf(req));
      && (out.Failure? ==> r == Failure(out.error))
      && (out.Success? ==> r == Success(LiveReportData(g.cfg.emailSubject + " - " + teamInfo.name, out.value)))
  {
  }

  /** A failed print returns no data with its error; a successful one no error. */
  lemma PrintOutcome(g: LiveGen, teamInfo: TeamInfo, req: LiveReportRequest)
    ensures var (data, err) := Print(g, teamInfo, req);
      && (err.Some? <==> g.template(EmailReportOf(req)).Failure?)
      && (err.Some? ==> data == LiveReportData("", []))
      && (err.None? ==> data.emailBody == g.template(EmailReportOf(req)).value)
  {
  }
}
