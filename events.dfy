/**
 * The calls the runner makes on collaborators it does not implement: the
 * operating system's process launcher, the embedded Jetty web server and
 * JUnit's run notifier. Each call is recorded, in order, in one shared log.
 */
module Events {

  datatype Event =
    | Spawn(command: seq<string>)   // Runtime.exec(command) started a process
    | Destroy                       // Process.destroy()
    | StartWebServer                // Server.start() on the Jetty server
    | StopWebServer                 // Server.stop() on the Jetty server
    | TestStarted(name: string)     // RunNotifier.fireTestStarted
    | TestFailure(header: string, trace: string) // RunNotifier.fireTestFailure
    | TestFinished(name: string)    // RunNotifier.fireTestFinished

  class EventLog {
    var events: seq<Event>

    constructor ()
      ensures events == []
    {
      events := [];
    }

    method Record(e: Event)
      modifies this
      ensures events == old(events) + [e]
    {
      events := events + [e];
    }
  }
}
