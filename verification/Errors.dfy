/** The error classes of the mirror and which of them a request may be retried on. */
module Errors {
  datatype ErrorType =
    | PermissionDenied | RateLimited | NetworkError | ServerError | InvalidParams | InvalidEndpoint
    | EmptyResult | SchemaIncompatible | WriteFailed | ChecksumFailed | CatalogCommitFailed
    | ValidationFailed | UnknownError

  predicate Retryable(e: ErrorType) {
    e in {RateLimited, NetworkError, ServerError, UnknownError}
  }

  /** `should_retry` */
  predicate ShouldRetry(e: ErrorType, attempt: int, maxAttempts: int) {
    Retryable(e) && attempt < maxAttempts
  }
}
