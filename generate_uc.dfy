/**
 * The `GenerateUC` factory: the report type chooses the use case, which
 * holds the generator and the repository it is given.
 */
module UseCases {
  import opened Wrappers
  import opened Errors
  import opened Model
  import Generator
  import Storage

  /** The use case built for a report type, with the generator and repository it holds. */
  datatype GenerateUC =
    | ScanCase(generator: Generator.Generator, repository: Storage.ReportsRepository)
    | LiveCase(generator: Generator.Generator, repository: Storage.ReportsRepository)

  /** `NewGenerateUC`: a scan use case for "scan", a live report use case for "livereport", an error otherwise. */
  function NewGenerateUC(typ: string, generator: Generator.Generator, repository: Storage.ReportsRepository)
    : Result<GenerateUC, Error>
  {
    if typ == ScanType then Success(ScanCase(generator, repository))
    else if typ == LiveReportType then Success(LiveCase(generator, repository))
    else Failure(UnsupportedReportType)
  }

  /**
   * The dispatch: the result is a scan use case exactly for "scan", a live
   * report use case exactly for "livereport", each holding the given
   * generator and repository, and `ErrUnsupportedReportType` exactly for
   * every other type; it is never both a use case and an error.
   */
  lemma NewGenerateUCDispatch(typ: string, generator: Generator.Generator, repository: Storage.ReportsRepository)
    ensures var r := NewGenerateUC(typ, generator, repository);
      && (r == Success(ScanCase(generator, repository)) <==> typ == ScanType)
      && (r == Success(LiveCase(generator, repository)) <==> typ == LiveReportType)
      && (r == Failure(UnsupportedReportType) <==> typ != ScanType && typ != LiveReportType)
      && (r.Success? ==> r.value.generator == generator && r.value.repository == repository)
  {
  }
}
