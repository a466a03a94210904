/**
 * The two request guards: pure accept-or-throw decisions over a configured
 * secret and the value of one request header.
 */
module Guards {
  import opened Wrappers

  /** A request header as the HTTP layer gives it: absent, one value, or repeated values. */
  datatype HeaderField = Absent | Single(value: string) | Repeated(values: seq<string>)

  /** The exceptions the guards throw. */
  datatype GuardError = ServiceUnavailable(message: string) | Unauthorized(message: string)

  /** A guard outcome: `Success(b)` is `return b`, `Failure(e)` is `throw e`. */
  type Decision = Result<bool, GuardError>

  /** The header value: the first of repeated values, and the empty text when there is none. */
  function HeaderValue(h: HeaderField): (v: string)
    ensures h.Single? ==> v == h.value
    ensures h.Repeated? && h.values != [] ==> v == h.values[0]
    ensures h.Absent? || (h.Repeated? && h.values == []) ==> v == ""
  {
    match h
    case Absent => ""
    case Single(value) => value
    case Repeated(values) => if values == [] then "" else values[0]
  }

  /**
   * The guard of the site-facing endpoints (`x-site-api-secret`): unavailable
   * without a secret, otherwise accepted exactly when the header equals it.
   */
  function InternalSecretCanActivate(expected: Option<string>, header: HeaderField): (d: Decision)
    ensures !Filled(expected) ==> d.Failure? && d.error.ServiceUnavailable?
    ensures Filled(expected) ==> (d.Success? <==> HeaderValue(header) == expected.value)
    ensures Filled(expected) && d.Failure? ==> d.error.Unauthorized?
    ensures d.Success? ==> d.value
  {
    if !Filled(expected) then Failure(ServiceUnavailable("SITE_API_SECRET is not configured"))
    else if HeaderValue(header) != expected.value then Failure(Unauthorized("невалидный api секретного ключа"))
    else Success(true)
  }

  /**
   * The guard of the bot webhook (`x-telegram-bot-api-secret-token`): open
   * without a secret, otherwise accepted exactly when the header equals it.
   */
  function WebhookCanActivate(expected: Option<string>, header: HeaderField): (d: Decision)
    ensures !Filled(expected) ==> d == Success(true)
    ensures Filled(expected) ==> (d.Success? <==> HeaderValue(header) == expected.value)
    ensures d.Failure? ==> d.error == Unauthorized("Invalid Telegram webhook secret")
    ensures d.Success? ==> d.value
  {
    if !Filled(expected) then Success(true)
    else if HeaderValue(header) != expected.value then Failure(Unauthorized("Invalid Telegram webhook secret"))
    else Success(true)
  }

  /** Without the header, the internal guard never lets a request through. */
  lemma MissingSecretHeaderRejected(expected: Option<string>)
    ensures InternalSecretCanActivate(expected, Absent).Failure?
    ensures InternalSecretCanActivate(expected, Repeated([])).Failure?
  {
  }

  /** With a webhook secret configured, a missing header is refused. */
  lemma MissingWebhookHeaderRejected(expected: Option<string>)
    requires Filled(expected)
    ensures WebhookCanActivate(expected, Absent) == Failure(Unauthorized("Invalid Telegram webhook secret"))
  {
  }
}
