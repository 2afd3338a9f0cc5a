/**
 * The repository contract shared by both report stores, and the factory
 * that builds a repository for a report type.
 */
module Storage {
  import opened Wrappers
  import opened Errors
  import opened Model
  import ScanReportsRepository
  import LiveReportsRepository

  /**
   * A `ReportsRepository`: a store offering `GetReport` and `SaveReport`,
   * which is one of the two stores.
   */
  datatype ReportsRepository =
    | ScanStore(scan: ScanReportsRepository.ScanReportsRepository)
    | LiveStore(live: LiveReportsRepository.LiveReportsRepository)

  /** The report types the factory builds a store for. */
  predicate IsRepositoryType(typ: string)
  {
    typ == LiveReportType
  }

  /**
   * `NewReportsRepository`: a new live reports store over the database `db`
   * for "livereport"; `ErrInvalidRepositoryType` for every other type,
   * "scan" included.
   */
  method NewReportsRepository(typ: string, fault: LiveReportsRepository.Fault, db: LiveReportsRepository.Table)
    returns (r: Result<ReportsRepository, Error>)
    requires db.Valid() && db.UniqueKeys()
    ensures r.Success? <==> IsRepositoryType(typ)
    ensures r.Failure? ==> r.error == InvalidRepositoryType
    ensures r.Success? ==> r.value.LiveStore? && fresh(r.value.live)
                           && r.value.live.fault == fault && r.value.live.table == db
  {
    if typ == LiveReportType {
      var repo := new LiveReportsRepository.LiveReportsRepository(fault, db);
      return Success(LiveStore(repo));
    }
    return Failure(InvalidRepositoryType);
  }

  /** Only "livereport" names a repository type; "scan" does not. */
  lemma RepositoryTypes()
    ensures IsRepositoryType(LiveReportType) && !IsRepositoryType(ScanType)
  {
  }

  /** The repository error sentinels are three distinct errors. */
  lemma DistinctSentinels()
    ensures InvalidRepositoryType != InvalidReportData && InvalidRepositoryType != ReportNotFound
    ensures InvalidReportData != ReportNotFound
  {
  }
}
