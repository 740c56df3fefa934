/**
 * Optional values, and success or failure of an operation that in the
 * source returns normally or throws.
 */
module Outcomes {

  datatype Option<+T> = None | Some(value: T)

  /** The exceptions the modelled code can raise or let through. */
  datatype Error =
    | FormatError(token: string)        // String.format meets a directive other than %1$s or %2$s
    | EmptyCommand                      // Runtime.exec on an empty argument array
    | LaunchFailure(command: seq<string>) // Runtime.exec cannot run the command
    | WebServerStartFailure             // Jetty's Server.start throws
    | WebServerStopFailure              // Jetty's Server.stop throws
    | InitializationError(message: string)
    | NumberFormatError(input: string)  // Integer.valueOf rejects its input

  /** A value, or the exception raised while computing it. */
  datatype Result<+T> = Ok(value: T) | Err(error: Error)

  /** Normal completion, or the exception a call completed with. */
  datatype Outcome = Pass | Fail(error: Error)

  /**
   * The outcome of Java's `try { body } finally { cleanup }`: an exception
   * thrown by the cleanup replaces whatever the body did; otherwise the
   * body's outcome stands.
   */
  function TryFinally(body: Outcome, cleanup: Outcome): (r: Outcome)
    ensures cleanup.Fail? ==> r == cleanup
    ensures cleanup.Pass? ==> r == body
    ensures r.Pass? <==> body.Pass? && cleanup.Pass?
  {
    if cleanup.Fail? then cleanup else body
  }
}
