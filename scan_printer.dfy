/**
 * The scan printer: the security-overview library writes the report files
 * and the e-mail body and gives the report's URL and risk; the printer
 * derives the JSON report's URL from the HTML one.
 */
module ScanPrinter {
  import opened Wrappers
  import opened Errors
  import opened Strings
  import opened Processor
  import opened ScanGenerator

  const HtmlExt: string := ".html"
  const JsonExt: string := ".json"

  /** `parseReportURLToJSON`: an ".html" URL (in any letter case) with its extension replaced by ".json"; "" for any other URL. */
  function ParseReportURLToJSON(url: string): string
  {
    if HasSuffix(ToLower(url), HtmlExt) then url[..|url| - 5] + JsonExt else ""
  }

  /**
   * The JSON URL is non-empty exactly for URLs ending in ".html" in any
   * letter case; it then has the URL's length, keeps everything before
   * the extension in its original case, and ends in ".json".
   */
  lemma JsonURLShape(url: string)
    ensures var r := ParseReportURLToJSON(url);
      && (r != "" <==> |url| >= 5 && ToLower(url[|url| - 5..]) == HtmlExt)
      && (r != "" ==> |r| == |url| && r[..|url| - 5] == url[..|url| - 5] && HasSuffix(r, JsonExt))
  {
    if |url| >= 5 {
      var low := ToLower(url);
      assert low[|url| - 5..] == ToLower(url[|url| - 5..]);
    }
  }

  /** The JSON URL does not itself end in ".html", so converting it again gives "". */
  lemma JsonURLOnce(url: string)
    ensures ParseReportURLToJSON(ParseReportURLToJSON(url)) == ""
  {
    var r := ParseReportURLToJSON(url);
    if r != "" {
      assert ToLower(r)[|r| - 4] == LowerChar(r[|r| - 4]) == 'j';
    }
  }

  /** The extension test ignores case; the rest of the URL keeps its case. */
  lemma JsonURLExamples()
    ensures ParseReportURLToJSON("A.HTML") == "A.json"
    ensures ParseReportURLToJSON("A.htm") == ""
    ensures ParseReportURLToJSON("") == ""
  {
    var low := ToLower("A.HTML");
    assert low[1..] == ".html" by {
      assert low[1] == '.' && low[2] == 'h' && low[3] == 't' && low[4] == 'm' && low[5] == 'l';
    }
    var low' := ToLower("A.htm");
    assert |low'| == 5 && low'[0] == 'a';
  }

  /** What the security-overview library produces for a team and a scan. */
  datatype DetailedReport = DetailedReport(url: string, email: string, risk: int)

  /** The security-overview library and the file system, by their outcomes. */
  datatype SecOverview = SecOverview(
    /** `secoverview.NewDetailedReport(cfgFile, teamName, scanID, teamID)` */
    newDetailedReport: (string, string, string, string) -> Result<DetailedReport, Error>,
    /** `GenerateLocalFiles` */
    generateLocalFiles: DetailedReport -> Option<Error>,
    /** reading the e-mail body file */
    readFile: string -> Result<Bytes, Error>,
    /** `RiskToActionString` */
    riskToAction: int -> string)

  /** `secOverviewPrinter.Print`. */
  function Print(cfgFile: string, lib: SecOverview, teamInfo: TeamInfo, scanReq: ScanRequest): Result<ScanReportData, Error>
  {
    match lib.newDetailedReport(cfgFile, teamInfo.name, scanReq.scanId, teamInfo.id)
    case Failure(e) => Failure(e)
    case Success(scanReport) =>
      match lib.generateLocalFiles(scanReport)
      case Some(e) => Failure(e)
      case None =>
        match lib.readFile(scanReport.email)
        case Failure(e) => Failure(e)
        case Success(emailBody) =>
          Success(ScanReportData(scanReport.url, ParseReportURLToJSON(scanReport.url), [], "", emailBody,
                                 lib.riskToAction(scanReport.risk), scanReport.risk))
  }

  /** `newScanPrinter`: the printer for a configuration file. */
  function NewScanPrinter(cfgFile: string, lib: SecOverview): Printer
  {
    (teamInfo: TeamInfo, scanReq: ScanRequest) => Print(cfgFile, lib, teamInfo, scanReq)
  }

  /**
   * A printed report's JSON URL is derived from its URL, and its action
   * from its risk; it lists no files and has no subject yet.
   */
  lemma PrintedData(cfgFile: string, lib: SecOverview, teamInfo: TeamInfo, scanReq: ScanRequest)
    requires Print(cfgFile, lib, teamInfo, scanReq).Success?
    ensures var d := Print(cfgFile, lib, teamInfo, scanReq).value;
      && d.reportJsonUrl == ParseReportURLToJSON(d.reportUrl)
      && d.action == lib.riskToAction(d.risk)
      && d.files == [] && d.emailSubject == ""
      && (d.reportJsonUrl == "" || HasSuffix(d.reportJsonUrl, JsonExt))
  {
    JsonURLShape(Print(cfgFile, lib, teamInfo, scanReq).value.reportUrl);
  }
}
