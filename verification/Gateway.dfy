/** How the engine reads a tool response and decides what to commit (engine.py). */
module Gateway {
  import opened Models

  /** `detail` is the text of the body. */
  datatype HttpReply = HttpReply(status: int, retryAfter: Option<Time>, body: Option<ToolResult>, detail: string)

  datatype Outcome =
    | Success(result: ToolResult)
    | Retryable(error: string, retryAfter: Option<Time>, throttleTool: bool)
    | Permanent(error: string)
    | Unreadable  // the body does not parse; the exception leaves run_once

  /** A number as decimal text. */
  function Decimal(n: nat): string {
    if n < 10 then ['0' + n as char] else Decimal(n / 10) + ['0' + (n % 10) as char]
  }

  function DecimalValue(text: string): int {
    if text == "" then 0 else 10 * DecimalValue(text[..|text| - 1]) + text[|text| - 1] as int - '0' as int
  }

  lemma {:induction false} DecimalReadsBack(n: nat)
    ensures DecimalValue(Decimal(n)) == n
  {
    if n < 10 {
      assert Decimal(n)[..0] == "";
    } else {
      DecimalReadsBack(n / 10);
      assert Decimal(n)[..|Decimal(n)| - 1] == Decimal(n / 10);
    }
  }

  /** What a request without an answer amounts to. */
  function NoAnswer(detail: string): Outcome {
    Retryable("tool transport error: " + detail, None, false)
  }

  /** The order of the checks in `HttpToolGateway.execute`. */
  function Interpret(reply: HttpReply): Outcome {
    if reply.status == 429 then Retryable("tool throttled the request", reply.retryAfter, true)
    else if reply.status == 409 then Permanent("idempotency key was reused with a different request")
    else if 500 <= reply.status < 600
      then Retryable("tool returned HTTP " + Decimal(reply.status), None, false)
    else if 400 <= reply.status < 500
      then Permanent("tool returned HTTP " + Decimal(reply.status) + ": " + reply.detail)
    else match reply.body
      case Some(result) => Success(result)
      case None => Unreadable
  }

  datatype Settings = Settings(maxAttempts: int, baseBackoff: Time, maxBackoff: Time)

  function Pow2(n: nat): nat {
    if n == 0 then 1 else 2 * Pow2(n - 1)
  }

  function Min(a: int, b: int): int {
    if a <= b then a else b
  }

  /** `base` doubled `n` times. */
  function Doubled(base: int, n: nat): int {
    if n == 0 then base else 2 * Doubled(base, n - 1)
  }

  lemma {:induction false} DoubledIsPower(base: int, n: nat)
    ensures Doubled(base, n) == base * Pow2(n)
  {
    if n > 0 {
      DoubledIsPower(base, n - 1);
      assert base * Pow2(n) == 2 * (base * Pow2(n - 1));
    }
  }

  /** The engine's own exponential backoff after the given attempt; attempts are numbered from 1. */
  function LocalDelay(settings: Settings, attempt: int): Time {
    Min(Doubled(settings.baseBackoff, if attempt >= 1 then attempt - 1 else 0), settings.maxBackoff)
  }

  datatype Decision =
    | GiveUp(error: string)
    | TryAgain(delay: Time, local: bool)

  /** The retry policy of `_handle_retryable_failure`. */
  function Decide(settings: Settings, attempt: int, error: string, retryAfter: Option<Time>): Decision {
    if attempt >= settings.maxAttempts then GiveUp("retry budget exhausted: " + error)
    else match retryAfter
      case Some(delay) => TryAgain(delay, false)
      case None => TryAgain(LocalDelay(settings, attempt), true)
  }
}
