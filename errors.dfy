/** The error taxonomy of the labeller (packages/core/src/errors.ts): every
    error carries a message and a fixed code string; a few carry more. A
    `cause` is kept as the message of the error that was wrapped. */
module Errors {

  datatype Error =
    | AuthError(message: string)
    | ProviderError(message: string, provider: string, cause: string)
    | ClassificationError(message: string, emailId: string, cause: string)
    | RateLimitError(message: string, retryAfter: int)
    | ConfigError(message: string)
      /** Any other thrown JavaScript error (a failed file read, a TypeError). */
    | Thrown(message: string)
  {
    /** The `code` field each subclass passes to `EmailLabellerError`. */
    function Code(): (c: string)
      ensures Thrown? <==> c == ""
    {
      match this
      case AuthError(_) => "AUTH_ERROR"
      case ProviderError(_, _, _) => "PROVIDER_ERROR"
      case ClassificationError(_, _, _) => "CLASSIFICATION_ERROR"
      case RateLimitError(_, _) => "RATE_LIMIT_ERROR"
      case ConfigError(_) => "CONFIG_ERROR"
      case Thrown(_) => ""
    }
  }

  /** What the command-line commands throw when no token file is found. */
  const NoTokens := Thrown("No tokens found. Run `email-labeller auth` first.")

  /** The code identifies the kind of error: two errors with the same code are
      of the same subclass. */
  lemma CodeDeterminesKind(a: Error, b: Error)
    requires a.Code() == b.Code()
    ensures a.AuthError? == b.AuthError? && a.ProviderError? == b.ProviderError?
    ensures a.ClassificationError? == b.ClassificationError?
    ensures a.RateLimitError? == b.RateLimitError? && a.ConfigError? == b.ConfigError?
  {
  }
}
