/**
 * The pipeline error log that `log_error` appends to. Records are only ever
 * appended; nothing in the analytics core reads them back.
 */
module PipelineLogger {
  import opened Entities

  /** The kind of a pipeline error; the other kinds of `PipelineError` are not part of this model. */
  datatype ErrorType = UnspecifiedData

  /** The `error_data` dictionary passed to `log_error` by the learner progress getter. */
  datatype ErrorData = ErrorData(msg: string, username: string, courseId: CourseKey, exception: string)

  datatype ErrorRecord = ErrorRecord(errorType: ErrorType, data: ErrorData)

  class ErrorLog {
    var entries: seq<ErrorRecord>

    constructor ()
      ensures entries == []
    {
      entries := [];
    }

    /** `log_error(error_data, error_type)`: append one record. */
    method LogError(errorData: ErrorData, errorType: ErrorType)
      modifies this
      ensures entries == old(entries) + [ErrorRecord(errorType, errorData)]
    {
      entries := entries + [ErrorRecord(errorType, errorData)];
    }
  }
}
