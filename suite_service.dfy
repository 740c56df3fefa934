/**
 * The suite service: it finds the test pages, turns them into URLs, and
 * brings the result server and the execution server up and down around
 * the tests.
 */
module SuiteService {
  import opened Outcomes
  import opened Strings
  import opened Events
  import opened Urls
  import opened ExecutionServer
  import opened ResultServer

  /** A path without its one leading `/`, if it has one. */
  function StripLeadingSlash(path: string): (r: string)
    ensures |path| > 0 && path[0] == '/' ==> "/" + r == path
    ensures !(|path| > 0 && path[0] == '/') ==> r == path
  {
    if |path| > 0 && path[0] == '/' then path[1..] else path
  }

  /** `getFormattedPath`: a URL's path without its leading `/`, for display. */
  function FormattedPath(url: Url): string
  {
    StripLeadingSlash(Path(url))
  }

  /** The URL path of an included file: `/` and the file with the platform separator turned into `/`. */
  function UrlPathOf(includedFile: string, separator: char): (r: string)
    ensures |r| == |includedFile| + 1 && r[0] == '/'
    ensures forall i :: 0 <= i < |includedFile| ==> r[i + 1] == if includedFile[i] == separator then '/' else includedFile[i]
  {
    "/" + Replace(includedFile, separator, '/')
  }

  /** The URL of an included file, for a valid port. */
  function FileUrl(host: string, port: int, includedFile: string, separator: char): Url
    requires port >= -1
  {
    MakeUrl(host, port, UrlPathOf(includedFile, separator)).value
  }

  /** The URLs of the included files; none when the port is invalid. */
  function FilesAsUrls(host: string, port: int, includedFiles: seq<string>, separator: char): seq<Url>
  {
    if |includedFiles| == 0 || port < -1 then []
    else
      FilesAsUrls(host, port, includedFiles[..|includedFiles| - 1], separator) +
        [FileUrl(host, port, includedFiles[|includedFiles| - 1], separator)]
  }

  /** One URL per included file, in input order, or none at all when the port is invalid. */
  lemma {:induction false} FilesAsUrlsElements(host: string, port: int, includedFiles: seq<string>, separator: char)
    ensures port < -1 ==> FilesAsUrls(host, port, includedFiles, separator) == []
    ensures port >= -1 ==> |FilesAsUrls(host, port, includedFiles, separator)| == |includedFiles|
    ensures port >= -1 ==> forall i :: 0 <= i < |includedFiles| ==>
      FilesAsUrls(host, port, includedFiles, separator)[i] == FileUrl(host, port, includedFiles[i], separator)
  {
    if |includedFiles| > 0 {
      FilesAsUrlsElements(host, port, includedFiles[..|includedFiles| - 1], separator);
    }
  }

  /**
   * Displaying the URL of an included file gives back the file, with
   * separators turned into `/`, provided the file has no `?` or `#` and
   * the host no `:`.
   */
  lemma FormattedPathOfFile(host: string, port: int, includedFile: string, separator: char)
    requires port >= -1 && ':' !in host
    requires '?' !in includedFile && '#' !in includedFile
    requires separator != '?' && separator != '#'
    ensures FormattedPath(FileUrl(host, port, includedFile, separator)) == Replace(includedFile, separator, '/')
  {
    var p := UrlPathOf(includedFile, separator);
    assert '#' !in p && '?' !in p by {
      forall i | 0 <= i < |p| ensures p[i] != '#' && p[i] != '?' {
        if i > 0 { assert p[i] == if includedFile[i - 1] == separator then '/' else includedFile[i - 1]; }
      }
    }
    assert p[0] == '/';
  }

  /** relativeFilepathsAsUrls: one URL per included file, in input order; a file whose URL is malformed is skipped. */
  method RelativeFilepathsAsUrls(host: string, port: int, includedFiles: seq<string>, separator: char)
    returns (relativeUrls: seq<Url>)
    ensures relativeUrls == FilesAsUrls(host, port, includedFiles, separator)
  {
    relativeUrls := [];
    var i := 0;
    while i < |includedFiles|
      invariant 0 <= i <= |includedFiles|
      invariant relativeUrls == FilesAsUrls(host, port, includedFiles[..i], separator)
    {
      assert includedFiles[..i + 1][..i] == includedFiles[..i];
      var url := MakeUrl(host, port, UrlPathOf(includedFiles[i], separator));
      if url.Some? {
        relativeUrls := relativeUrls + [url.value];
      }
      i := i + 1;
    }
    assert includedFiles[..i] == includedFiles;
  }

  /**
   * The directory scanner, which is not part of this model: the included
   * files of a resource base for the given include and exclude patterns.
   */
  type Scanner = (string, seq<string>, seq<string>) -> seq<string>

  /** The URLs of one resource base. */
  function BaseUrls(host: string, port: int, resourceBase: string, includes: seq<string>,
                    excludes: seq<string>, scanner: Scanner, separator: char): seq<Url>
  {
    FilesAsUrls(host, port, scanner(resourceBase, includes, excludes), separator)
  }

  /** BaseUrls as a function of the resource base alone. */
  function BaseUrlsOf(host: string, port: int, includes: seq<string>, excludes: seq<string>,
                      scanner: Scanner, separator: char): string -> seq<Url>
  {
    base => BaseUrls(host, port, base, includes, excludes, scanner, separator)
  }

  /** The URLs of every resource base, base after base. */
  function ScannedUrls(host: string, port: int, resourceBases: seq<string>, includes: seq<string>,
                       excludes: seq<string>, scanner: Scanner, separator: char): seq<Url>
  {
    Concat(Map(BaseUrlsOf(host, port, includes, excludes, scanner, separator), resourceBases))
  }

  /** Scanning two lists of resource bases one after the other concatenates their URLs. */
  lemma ScannedUrlsAppend(host: string, port: int, a: seq<string>, b: seq<string>,
                          includes: seq<string>, excludes: seq<string>, scanner: Scanner, separator: char)
    ensures ScannedUrls(host, port, a + b, includes, excludes, scanner, separator) ==
      ScannedUrls(host, port, a, includes, excludes, scanner, separator) +
      ScannedUrls(host, port, b, includes, excludes, scanner, separator)
  {
    var f := BaseUrlsOf(host, port, includes, excludes, scanner, separator);
    MapAppend(f, a, b);
    ConcatAppend(Map(f, a), Map(f, b));
  }

  /** One resource base contributes exactly the URLs of its included files. */
  lemma ScannedUrlsOne(host: string, port: int, base: string, includes: seq<string>,
                       excludes: seq<string>, scanner: Scanner, separator: char)
    ensures ScannedUrls(host, port, [base], includes, excludes, scanner, separator) ==
      FilesAsUrls(host, port, scanner(base, includes, excludes), separator)
  {
    var f := BaseUrlsOf(host, port, includes, excludes, scanner, separator);
    var m := Map(f, [base]);
    assert m[..0] == [];
    assert Concat(m) == [] + m[0];
    assert m[0] == f(base) == BaseUrls(host, port, base, includes, excludes, scanner, separator);
  }

  /** Scanning one more resource base appends the URLs of its included files. */
  lemma ScannedUrlsSnoc(host: string, port: int, resourceBases: seq<string>, i: nat, includes: seq<string>,
                        excludes: seq<string>, scanner: Scanner, separator: char)
    requires i < |resourceBases|
    ensures ScannedUrls(host, port, resourceBases[..i + 1], includes, excludes, scanner, separator) ==
      ScannedUrls(host, port, resourceBases[..i], includes, excludes, scanner, separator) +
      FilesAsUrls(host, port, scanner(resourceBases[i], includes, excludes), separator)
  {
    assert resourceBases[..i + 1] == resourceBases[..i] + [resourceBases[i]];
    ScannedUrlsAppend(host, port, resourceBases[..i], [resourceBases[i]], includes, excludes, scanner, separator);
    ScannedUrlsOne(host, port, resourceBases[i], includes, excludes, scanner, separator);
  }

  /** scanTestFiles: the included files of each resource base in turn, as URLs. */
  method ScanTestFiles(host: string, port: int, resourceBases: seq<string>, includes: seq<string>,
                       excludes: seq<string>, scanner: Scanner, separator: char)
    returns (includedUrls: seq<Url>)
    ensures includedUrls == ScannedUrls(host, port, resourceBases, includes, excludes, scanner, separator)
  {
    includedUrls := [];
    var i := 0;
    while i < |resourceBases|
      invariant 0 <= i <= |resourceBases|
      invariant includedUrls == ScannedUrls(host, port, resourceBases[..i], includes, excludes, scanner, separator)
    {
      ScannedUrlsSnoc(host, port, resourceBases, i, includes, excludes, scanner, separator);
      var urls := RelativeFilepathsAsUrls(host, port, scanner(resourceBases[i], includes, excludes), separator);
      includedUrls := includedUrls + urls;
      i := i + 1;
    }
    assert resourceBases[..i] == resourceBases;
  }

  class JSTestSuiteRunnerService {
    const resultServer: JSTestResultServer
    const executionServer: JSTestExecutionServer

    /** Both servers record on one log, so their calls can be ordered. */
    predicate Valid()
      reads this, resultServer, resultServer.webServer
    {
      resultServer.Valid() && resultServer.webServer.log == executionServer.log
    }

    constructor (resultServer: JSTestResultServer, executionServer: JSTestExecutionServer)
      requires resultServer.Valid() && resultServer.webServer.log == executionServer.log
      ensures this.resultServer == resultServer && this.executionServer == executionServer
      ensures Valid()
    {
      this.resultServer := resultServer;
      this.executionServer := executionServer;
    }

    /**
     * Start the result server, then the execution server. If the result
     * server fails to start, the execution server is not started and the
     * failure is the outcome.
     */
    method BeforeTests() returns (r: Outcome)
      requires Valid()
      modifies resultServer, resultServer.webServer, executionServer, executionServer.fs, executionServer.log
      ensures Valid() && resultServer.initedWebServer
      ensures resultServer.webServer.startFails ==>
        r == Fail(WebServerStartFailure) &&
        executionServer.log.events == old(executionServer.log.events) + [StartWebServer] &&
        executionServer.process == old(executionServer.process) &&
        executionServer.fs.files == old(executionServer.fs.files)
      ensures !resultServer.webServer.startFails ==>
        executionServer.fs.files == CopiedIfAbsent(old(executionServer.fs.files), executionServer.RunnerFile(), executionServer.bootstrap) &&
        (executionServer.Launch().Err? ==>
          r == Fail(executionServer.Launch().error) &&
          executionServer.process == old(executionServer.process) &&
          executionServer.log.events == old(executionServer.log.events) + [StartWebServer]) &&
        (executionServer.Launch().Ok? ==>
          r == Pass &&
          executionServer.process == Some(Process(executionServer.Launch().value, false, false)) &&
          executionServer.log.events == old(executionServer.log.events) + [StartWebServer, Spawn(executionServer.Launch().value)])
    {
      r := resultServer.Start();
      if r.Fail? {
        return;
      }
      r := executionServer.Start();
    }

    /**
     * Stop the execution server and then, in a `finally`, the result
     * server. Stopping the process cannot throw, so the outcome is that of
     * stopping the result server.
     */
    method AfterTests() returns (r: Outcome)
      requires Valid()
      modifies executionServer, executionServer.log
      ensures Valid()
      ensures executionServer.log.events == old(executionServer.log.events) +
        (if old(executionServer.process).Some? then [Destroy] else []) +
        (if resultServer.initedWebServer then [StopWebServer] else [])
      ensures executionServer.process == (if old(executionServer.process).Some? then Some(old(executionServer.process).value.(destroyed := true)) else None)
      ensures r == if resultServer.initedWebServer && resultServer.webServer.stopFails then Fail(WebServerStopFailure) else Pass
    {
      executionServer.Stop();
      var stopped := resultServer.Stop();
      r := TryFinally(Pass, stopped);
    }

    /** Ask the result server for a page's result, with the execution server as the producer. */
    method RunTest(url: Url) returns (r: Option<JSTestResult>)
      ensures r == resultServer.resultHandler.answer(url,
        executionServer.process.Some? && !executionServer.process.value.exited, TIMEOUT_SECONDS)
    {
      var available := executionServer.IsRunning();
      r := resultServer.GetJsTestResult(url, available);
    }
  }
}
