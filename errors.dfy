/**
 * The error values of the service. Go distinguishes errors by identity
 * (`errors.New` sentinels, compared with `==` or `errors.Is`); the model gives
 * each sentinel its own constructor, so distinct sentinels are distinct values.
 */
module Errors {

  datatype Error =
    // pkg/report/processor.go
    | InvalidRequest
    | UnsupportedReportType
    // pkg/report/generator.go
    | InvalidGeneratorType
    | InvalidConfiguration
    // pkg/storage/reports_repository.go
    | InvalidRepositoryType
    | InvalidReportData
    | ReportNotFound
    /** `fmt.Errorf("multiple reports for ...")` in the repositories' key lookups */
    | MultipleReports
    // pkg/notify/notifier.go
    | InvalidConfig
    | UnsupportedFmt
    // pkg/api/dto.go
    | InvalidReportFormat
    | UnsupportedReportTypeDto
    // pkg/queue/sqs.go
    | UnexpectedNilMessage
    | UnexpectedMssgFormat
    /** encoding/json failures: malformed text, or a value of the wrong JSON type for a field */
    | JsonSyntax
    | JsonType(field: string)
    /** `fmt.Errorf("%w: %v", sentinel, cause)` */
    | Wrapped(sentinel: Error, cause: Error)
    /** An error raised by code outside the model (database, AWS, templates, file system). */
    | External(origin: string)

  /** Go's `errors.Is(e, target)`: `e` is `target` or wraps it. */
  predicate Is(e: Error, target: Error)
  {
    e == target || (e.Wrapped? && Is(e.sentinel, target))
  }
}
