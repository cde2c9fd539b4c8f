/** The uniform result envelope of the tools: a value, or an error with a
    machine-readable code, a message and a remediation suggestion. Metadata
    (data source, timestamp, data note) is not modelled. */
module Envelope {
  import opened Wrappers

  datatype ApiError = ApiError(code: string, message: string, suggestion: string)

  type ApiResult<T> = Result<T, ApiError>
}
