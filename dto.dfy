/** The API's view of a stored scan report. */
module Dto {
  import opened Wrappers
  import opened Errors
  import opened Strings
  import opened Model

  const Comma: char := ','

  /** `ScanReportDTO` (timestamps are not modelled). */
  datatype ScanReportDTO = ScanReportDTO(
    id: ReportId,
    reportUrl: string,
    reportJsonUrl: string,
    scanId: string,
    programName: string,
    status: string,
    risk: int,
    emailSubject: string,
    emailBody: Bytes,
    deliveredTo: string)

  /** `toScanReportDTO`: a scan report's fields, recipients joined with commas; any other report is an invalid format. */
  function ToScanReportDTO(report: Report): Result<ScanReportDTO, Error>
  {
    match report
    case Live(_) => Failure(InvalidReportFormat)
    case Scan(r) =>
      Success(ScanReportDTO(r.base.id, r.reportUrl, r.reportJsonUrl, r.scanId, r.programName, r.base.status,
                            r.risk, r.base.notification.subject, r.base.notification.body,
                            Join(r.base.deliveredTo, Comma)))
  }

  /** `toReportDTO`: only scan reports have a DTO. */
  function ToReportDTO(typ: string, report: Report): Result<ScanReportDTO, Error>
  {
    if typ == ScanType then ToScanReportDTO(report) else Failure(UnsupportedReportTypeDto)
  }

  /**
   * A scan report's DTO carries its fields one to one, its recipients
   * joined with commas, which split back into the recipients when there is
   * at least one and none contains a comma; any other report is refused
   * with `ErrInvalidReportFormat`.
   */
  lemma ScanDTOFields(report: Report)
    ensures ToScanReportDTO(report).Success? <==> report.Scan?
    ensures report.Live? ==> ToScanReportDTO(report) == Failure(InvalidReportFormat)
    ensures report.Scan? ==>
      var r := report.scan;
      var d := ToScanReportDTO(report).value;
      && d.id == r.GetID() && d.status == r.GetStatus() && d.risk == r.risk
      && d.reportUrl == r.reportUrl && d.reportJsonUrl == r.reportJsonUrl
      && d.scanId == r.scanId && d.programName == r.programName
      && d.emailSubject == r.GetNotification().subject && d.emailBody == r.GetNotification().body
      && (r.GetDeliveredTo() != [] && (forall i :: 0 <= i < |r.GetDeliveredTo()| ==> Comma !in r.GetDeliveredTo()[i])
          ==> Split(d.deliveredTo, Comma) == r.GetDeliveredTo())
  {
    if report.Scan? && report.scan.GetDeliveredTo() != []
       && (forall i :: 0 <= i < |report.scan.GetDeliveredTo()| ==> Comma !in report.scan.GetDeliveredTo()[i]) {
      SplitJoinClean(report.scan.GetDeliveredTo(), Comma);
    }
  }

  /** The DTO mapping accepts "scan" only, and for "scan" is `toScanReportDTO`. */
  lemma ReportDTODispatch(typ: string, report: Report)
    ensures typ == ScanType ==> ToReportDTO(typ, report) == ToScanReportDTO(report)
    ensures typ != ScanType ==> ToReportDTO(typ, report) == Failure(UnsupportedReportTypeDto)
  {
  }
}
