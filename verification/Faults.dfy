/** Errors as errors.Is and errors.As see them: pkg/event/errors.go. */
module Faults {

  /** What can be found in an error's chain: a sentinel, the non-retryable marker or a client error. */
  datatype Mark = NonRetryable | Decode | NoRoute | Panicked | Publication | Client

  datatype Error = Error(marks: set<Mark>, text: string)

  /** How a call into user or broker code ends. */
  datatype Answer = Ok | Fail(err: Error) | Panic(value: string)

  /** fmt.Errorf with two %w verbs: both chains are searched. */
  function Wrap(a: Error, b: Error): Error {
    Error(a.marks + b.marks, a.text + ": " + b.text)
  }

  predicate IsNonRetryable(e: Error) {
    NonRetryable in e.marks
  }

  const ERR_DECODE := Error({Decode}, "payload decode failed")
  const ERR_NO_ROUTE := Error({NoRoute}, "message does not match any route")
  const ERR_PANIC := Error({Panicked}, "handler panicked")
  const ERR_PUBLICATION := Error({Publication}, "failed to publish message")

  // ctx.Err() of a context that ended while waiting.
  const ERR_CONTEXT := Error({}, "context canceled")

  /** panicCause: the recovered value is text only, its own chain is not searched. */
  function PanicCause(value: string): Error {
    Error(ERR_PANIC.marks, ERR_PANIC.text + ": " + value)
  }
}
