/**
 * The report entities shared by every layer: status, format and type
 * constants, the common report fields, and the two report variants behind
 * the `Report` interface.
 */
module Model {
  import opened Strings

  /** Notification format, a Go `uint8`. */
  newtype NotifFmt = x: int | 0 <= x < 256

  const NotifFmtHTML: NotifFmt := 0
  const NotifFmtText: NotifFmt := 1

  const ScanType: string := "scan"
  const LiveReportType: string := "livereport"

  const StatusGenerating: string := "GENERATING"
  const StatusFinished: string := "FINISHED"
  const StatusFailed: string := "FAILED"

  /**
   * Report identifiers. The database's ids are opaque strings; the model
   * numbers them, and 0 plays the part of Go's empty string: the id of a
   * report that has not been stored yet.
   */
  type ReportId = nat
  const NoId: ReportId := 0

  /** A report file and its upload destination. */
  datatype FileInfo = FileInfo(filePath: string, destBucket: string, destPath: string)

  datatype Notification = Notification(subject: string, body: Bytes, fmt: NotifFmt)

  /** The fields every report type has (creation and update timestamps are not modelled). */
  datatype BaseReport = BaseReport(
    id: ReportId,
    files: seq<FileInfo>,
    notification: Notification,
    deliveredTo: seq<string>,
    status: string)

  /** The zero `BaseReport` with a status: what the use cases start from. */
  function NewBase(status: string): BaseReport
  {
    BaseReport(NoId, [], Notification("", [], NotifFmtHTML), [], status)
  }

  datatype ScanReport = ScanReport(
    base: BaseReport,
    scanId: string,
    reportUrl: string,
    reportJsonUrl: string,
    programName: string,
    risk: int)
  {
    function GetID(): ReportId { base.id }
    function GetFiles(): seq<FileInfo> { base.files }
    function GetNotification(): Notification { base.notification }
    function GetDeliveredTo(): seq<string> { base.deliveredTo }
    function GetStatus(): string { base.status }
  }

  datatype LiveReport = LiveReport(
    base: BaseReport,
    teamId: string,
    dateFrom: string,
    dateTo: string)
  {
    function GetID(): ReportId { base.id }
    /** The source declares no `GetFiles` for live reports; this is the accessor the `Report` interface asks for. */
    function GetFiles(): seq<FileInfo> { base.files }
    function GetNotification(): Notification { base.notification }
    function GetDeliveredTo(): seq<string> { base.deliveredTo }
    function GetStatus(): string { base.status }
    function GetTeamID(): string { teamId }
    function GetDateFrom(): string { dateFrom }
    function GetDateTo(): string { dateTo }
  }

  /** The `Report` interface: a value of one of the two report types. */
  datatype Report = Scan(scan: ScanReport) | Live(live: LiveReport)
  {
    function Base(): BaseReport
    {
      match this
      case Scan(r) => r.base
      case Live(r) => r.base
    }

    function GetID(): ReportId
    {
      match this
      case Scan(r) => r.GetID()
      case Live(r) => r.GetID()
    }

    function GetFiles(): seq<FileInfo>
    {
      match this
      case Scan(r) => r.GetFiles()
      case Live(r) => r.GetFiles()
    }

    function GetNotification(): Notification
    {
      match this
      case Scan(r) => r.GetNotification()
      case Live(r) => r.GetNotification()
    }

    function GetDeliveredTo(): seq<string>
    {
      match this
      case Scan(r) => r.GetDeliveredTo()
      case Live(r) => r.GetDeliveredTo()
    }

    function GetStatus(): string
    {
      match this
      case Scan(r) => r.GetStatus()
      case Live(r) => r.GetStatus()
    }
  }

  /** The three statuses are distinct, and the format and type constants have the source's values. */
  lemma ConstantsAsDeclared()
    ensures StatusGenerating != StatusFinished && StatusGenerating != StatusFailed && StatusFinished != StatusFailed
    ensures NotifFmtHTML == 0 && NotifFmtText == 1
    ensures ScanType == "scan" && LiveReportType == "livereport" && ScanType != LiveReportType
  {
  }

  /** Whatever the variant, the interface's accessors read back the stored common fields unchanged. */
  lemma AccessorsReadStoredFields(r: Report)
    ensures r.GetID() == r.Base().id && r.GetFiles() == r.Base().files
    ensures r.GetNotification() == r.Base().notification
    ensures r.GetDeliveredTo() == r.Base().deliveredTo && r.GetStatus() == r.Base().status
    ensures r.Live? ==> r.live.GetTeamID() == r.live.teamId && r.live.GetDateFrom() == r.live.dateFrom
                        && r.live.GetDateTo() == r.live.dateTo
  {
  }

  /** A set of ids with one element is that element's singleton. */
  lemma Singleton(s: set<ReportId>, x: ReportId)
    requires |s| == 1 && x in s
    ensures s == {x}
  {
    assert |s - {x}| == 0;
  }
}
