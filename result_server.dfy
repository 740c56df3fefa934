/**
 * The result server: an embedded Jetty server that serves the test pages
 * from the resource bases and receives the results the browser posts.
 * It is configured on its first start only.
 */
module ResultServer {
  import opened Outcomes
  import opened Events
  import Urls

  /** How long a test's result is waited for. */
  const TIMEOUT_SECONDS: int := 30

  /** What the browser reports for one test page. */
  datatype JSTestResult = JSTestResult(passes: int, failures: int, message: string)

  /** The handlers of the server's context: static files from a base folder, or the result receiver. */
  datatype Handler = ResourceHandler(resourceBase: string) | ResultHandler

  /** `ContextHandler` with its path and the handler list it delegates to. */
  datatype ContextHandler = ContextHandler(contextPath: string, handlers: seq<Handler>)

  /** One resource handler per base, in order, then the result handler. */
  function HandlerChain(resourceBases: seq<string>): (r: seq<Handler>)
    ensures |r| == |resourceBases| + 1
    ensures forall i :: 0 <= i < |resourceBases| ==> r[i] == ResourceHandler(resourceBases[i])
    ensures r[|resourceBases|] == ResultHandler
  {
    if |resourceBases| == 0 then [ResultHandler]
    else [ResourceHandler(resourceBases[0])] + HandlerChain(resourceBases[1..])
  }

  /** Only the last handler receives results. */
  lemma HandlerChainOneReceiver(resourceBases: seq<string>, i: int)
    requires 0 <= i <= |resourceBases|
    ensures HandlerChain(resourceBases)[i] == ResultHandler <==> i == |resourceBases|
  {
  }

  /** The part of Jetty's `Server` the runner drives; whether start and stop throw is given. */
  class WebServer {
    var connectors: seq<int>
    var handler: Option<ContextHandler>
    const startFails: bool
    const stopFails: bool
    const log: EventLog

    constructor (startFails: bool, stopFails: bool, log: EventLog)
      ensures connectors == [] && handler == None
      ensures this.startFails == startFails && this.stopFails == stopFails && this.log == log
    {
      connectors := [];
      handler := None;
      this.startFails := startFails;
      this.stopFails := stopFails;
      this.log := log;
    }

    /** `addConnector` of a connector listening on `port`. */
    method AddConnector(port: int)
      modifies this
      ensures connectors == old(connectors) + [port] && handler == old(handler)
    {
      connectors := connectors + [port];
    }

    method SetHandler(h: ContextHandler)
      modifies this
      ensures handler == Some(h) && connectors == old(connectors)
    {
      handler := Some(h);
    }

    method Start() returns (r: Outcome)
      modifies log
      ensures log.events == old(log.events) + [StartWebServer]
      ensures r == if startFails then Fail(WebServerStartFailure) else Pass
    {
      log.Record(StartWebServer);
      r := if startFails then Fail(WebServerStartFailure) else Pass;
    }

    method Stop() returns (r: Outcome)
      modifies log
      ensures log.events == old(log.events) + [StopWebServer]
      ensures r == if stopFails then Fail(WebServerStopFailure) else Pass
    {
      log.Record(StopWebServer);
      r := if stopFails then Fail(WebServerStopFailure) else Pass;
    }
  }

  /**
   * The result handler's wait for a page's result. Its logic is not part of
   * this model: the answer is a given function of the URL, whether the
   * producer is available and the timeout; None means no result came.
   */
  class JSTestResultHandler {
    const answer: (Urls.Url, bool, int) -> Option<JSTestResult>

    constructor (answer: (Urls.Url, bool, int) -> Option<JSTestResult>)
      ensures this.answer == answer
    {
      this.answer := answer;
    }

    method GetJsTestResult(url: Urls.Url, producerAvailable: bool, timeoutSeconds: int) returns (r: Option<JSTestResult>)
      ensures r == answer(url, producerAvailable, timeoutSeconds)
    {
      r := answer(url, producerAvailable, timeoutSeconds);
    }
  }

  class JSTestResultServer {
    const webServer: WebServer
    const resultHandler: JSTestResultHandler
    const port: int
    const contextPath: string
    const resourceBases: seq<string>
    /** What the Jetty server held before this object configured it. */
    const initialConnectors: seq<int>
    const initialHandler: Option<ContextHandler>

    var initedWebServer: bool

    /**
     * The server is configured exactly when the flag is set: then one
     * connector on `port` has been added and the context handler installed;
     * before that, the Jetty server is as it was handed over.
     */
    predicate Valid()
      reads this, webServer
    {
      if initedWebServer then
        webServer.connectors == initialConnectors + [port] &&
        webServer.handler == Some(ContextHandler(contextPath, HandlerChain(resourceBases)))
      else
        webServer.connectors == initialConnectors && webServer.handler == initialHandler
    }

    constructor (webServer: WebServer, resultHandler: JSTestResultHandler, port: int,
                 contextPath: string, resourceBases: seq<string>)
      ensures this.webServer == webServer && this.resultHandler == resultHandler
      ensures this.port == port && this.contextPath == contextPath && this.resourceBases == resourceBases
      ensures !initedWebServer && Valid()
    {
      this.webServer := webServer;
      this.resultHandler := resultHandler;
      this.port := port;
      this.contextPath := contextPath;
      this.resourceBases := resourceBases;
      this.initialConnectors := webServer.connectors;
      this.initialHandler := webServer.handler;
      initedWebServer := false;
    }

    /** The handler list as initWebServer builds it: an array filled with a running index. */
    method BuildHandlers() returns (handlers: seq<Handler>)
      ensures handlers == HandlerChain(resourceBases)
    {
      var arr := new Handler[|resourceBases| + 1](_ => ResultHandler);
      var i := 0;
      while i < |resourceBases|
        invariant 0 <= i <= |resourceBases|
        invariant forall j :: 0 <= j < i ==> arr[j] == ResourceHandler(resourceBases[j])
      {
        arr[i] := ResourceHandler(resourceBases[i]);
        i := i + 1;
      }
      arr[i] := ResultHandler;
      handlers := arr[..];
      var chain := HandlerChain(resourceBases);
      assert |handlers| == |chain|;
      assert forall j :: 0 <= j < |handlers| ==> handlers[j] == chain[j];
    }

    method InitWebServer()
      modifies webServer
      ensures webServer.connectors == old(webServer.connectors) + [port]
      ensures webServer.handler == Some(ContextHandler(contextPath, HandlerChain(resourceBases)))
    {
      webServer.AddConnector(port);
      var handlers := BuildHandlers();
      webServer.SetHandler(ContextHandler(contextPath, handlers));
    }

    /**
     * Configure the Jetty server on the first call only, then start it,
     * on every call; a failing start leaves the server configured.
     */
    method Start() returns (r: Outcome)
      requires Valid()
      modifies this, webServer, webServer.log
      ensures Valid() && initedWebServer
      ensures old(initedWebServer) ==>
        webServer.connectors == old(webServer.connectors) && webServer.handler == old(webServer.handler)
      ensures webServer.log.events == old(webServer.log.events) + [StartWebServer]
      ensures r == if webServer.startFails then Fail(WebServerStartFailure) else Pass
    {
      var wasInited := initedWebServer;
      initedWebServer := true;
      if !wasInited {
        InitWebServer();
      }
      r := webServer.Start();
    }

    /** Stop the Jetty server if it was ever started; otherwise do nothing. */
    method Stop() returns (r: Outcome)
      requires Valid()
      modifies webServer.log
      ensures Valid()
      ensures !initedWebServer ==> r == Pass && webServer.log.events == old(webServer.log.events)
      ensures initedWebServer ==>
        webServer.log.events == old(webServer.log.events) + [StopWebServer] &&
        r == if webServer.stopFails then Fail(WebServerStopFailure) else Pass
    {
      if initedWebServer {
        r := webServer.Stop();
      } else {
        r := Pass;
      }
    }

    /** Ask the result handler for a page's result, waiting at most 30 seconds. */
    method GetJsTestResult(url: Urls.Url, producerAvailable: bool) returns (r: Option<JSTestResult>)
      ensures r == resultHandler.answer(url, producerAvailable, TIMEOUT_SECONDS)
    {
      r := resultHandler.GetJsTestResult(url, producerAvailable, TIMEOUT_SECONDS);
    }
  }
}
