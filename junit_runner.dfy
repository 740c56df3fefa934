/**
 * The JUnit runner. It reads the test class's annotations, or their
 * defaults, into a configuration and builds the suite service from it. It
 * then runs one JUnit child per test page between the service's set-up
 * and tear-down, reporting to JUnit's run notifier.
 */
module JUnitRunner {
  import opened Outcomes
  import opened Strings
  import opened Events
  import opened Urls
  import opened Files
  import opened ExecutionServer
  import opened ResultServer
  import opened SuiteService
  import RunQUnit

  const DEFAULT_HOST: string := "localhost"
  const DEFAULT_PORT: int := 9080
  const HOST_FORM: string := "Host must be of the form host:port"
  const DEFAULT_COMMAND_PATTERN: string := "phantomjs '%1$s' %2$s"
  const TIMED_OUT: string := "Timed out waiting for test"

  // ---------------------------------------------------------------------
  // Configuration from the test class's annotations.
  // ---------------------------------------------------------------------

  /** The `@Host` value, if the class has one, as a host and a port. */
  function ParseHost(annotation: Option<string>): (r: Result<(string, int)>)
    ensures annotation.None? ==> r == Ok((DEFAULT_HOST, DEFAULT_PORT))
    ensures r.Ok? ==> MIN_INT <= r.value.1 <= MAX_INT
    ensures r.Err? ==> r.error == InitializationError(HOST_FORM) || r.error.NumberFormatError?
  {
    match annotation
    case None => Ok((DEFAULT_HOST, DEFAULT_PORT))
    case Some(value) =>
      var parts := JavaSplit(value, ':');
      if |parts| != 2 then Err(InitializationError(HOST_FORM))
      else
        match ParseInt(parts[1])
        case None => Err(NumberFormatError(parts[1]))
        case Some(port) => Ok((parts[0], port))
  }

  /** The decimal rendering of an int has no colon. */
  lemma NoColonInNumber(n: int)
    ensures ':' !in IntToString(n)
  {
    var d := IntToString(n);
    var digits := if n < 0 then NatToString(-n) else NatToString(n);
    assert forall i :: 0 <= i < |digits| ==> IsDigit(digits[i]);
    if n < 0 {
      assert d == "-" + digits;
      assert forall i :: 1 <= i < |d| ==> d[i] == digits[i - 1];
    } else {
      assert d == digits;
    }
  }

  /**
   * `host:port` with one colon and a non-empty port: the host as written,
   * and the port as `Integer.valueOf` reads it (so `+80` and `0080` are
   * 80), or the NumberFormatError it raises.
   */
  lemma ParseHostColon(host: string, port: string)
    requires ':' !in host && ':' !in port && |port| >= 1
    ensures ParseHost(Some(host + ":" + port)) ==
      if ParseInt(port).Some? then Ok((host, ParseInt(port).value)) else Err(NumberFormatError(port))
  {
    var s := host + ":" + port;
    assert Join([host, port], ':') == s by {
      assert [host, port][1..] == [port];
    }
    SplitJoin([host, port], ':');
    assert s[|host|] == ':';
    assert s[|s| - 1] == port[|port| - 1];
    assert port[|port| - 1] in port;
    assert JavaSplit(s, ':') == [host, port];
  }

  /** Writing a host without a colon and an int as `host:port` reads back as that host and port. */
  lemma ParseHostRoundTrip(host: string, port: int)
    requires ':' !in host && MIN_INT <= port <= MAX_INT
    ensures ParseHost(Some(host + ":" + IntToString(port))) == Ok((host, port))
  {
    NoColonInNumber(port);
    ParseHostColon(host, IntToString(port));
    ParseIntToString(port);
  }

  /**
   * The annotation is refused as malformed exactly when, once trailing
   * colons are dropped, it does not have exactly one colon.
   */
  lemma ParseHostShape(value: string)
    ensures ParseHost(Some(value)) == Err(InitializationError(HOST_FORM)) <==>
      multiset(StripTrailing(value, ':'))[':'] != 1
  {
    JavaSplitTwoParts(value, ':');
  }

  /** `host:` is refused: Java's split drops the empty port. */
  lemma ParseHostEmptyPort(host: string)
    requires ':' !in host
    ensures ParseHost(Some(host + ":")) == Err(InitializationError(HOST_FORM))
  {
    var s := host + ":";
    assert StripTrailing(s, ':') == host by {
      assert s[..|s| - 1] == host;
      if |host| > 0 { assert host[|host| - 1] in host; }
    }
    assert ':' !in multiset(host);
    ParseHostShape(s);
  }

  /** `host:port:` is taken as `host:port`, for the same reason. */
  lemma ParseHostTrailingColon(host: string, port: int)
    requires ':' !in host && MIN_INT <= port <= MAX_INT
    ensures ParseHost(Some(host + ":" + IntToString(port) + ":")) == Ok((host, port))
  {
    var d := IntToString(port);
    var s := host + ":" + d;
    var t := s + ":";
    ParseHostRoundTrip(host, port);
    assert ':' in s by { assert s[|host|] == ':'; }
    JavaSplitStripped(s, ':');
    JavaSplitStripped(t, ':');
    assert StripTrailing(t, ':') == StripTrailing(s, ':') by {
      assert t[..|t| - 1] == s;
    }
  }

  /** The annotations a test class may carry; None where it carries none. */
  datatype Annotations = Annotations(host: Option<string>, contextPath: Option<string>,
                                     resourceBases: Option<seq<string>>, includes: Option<seq<string>>,
                                     excludes: Option<seq<string>>, testRunnerFilePath: Option<string>)

  /** What the runner's constructor settles before it builds the servers. */
  datatype Config = Config(host: string, port: int, contextPath: string, resourceBases: seq<string>,
                           includes: seq<string>, excludes: seq<string>, commandPattern: string,
                           testRunnerFilePath: string)

  function OrElse<T>(o: Option<T>, default: T): T
  {
    if o.Some? then o.value else default
  }

  /**
   * The constructor's settings: each annotation's value where present and
   * its default otherwise; the command pattern comes from a system
   * property. Only a malformed host fails.
   */
  function Configure(annotations: Annotations, commandPatternProperty: Option<string>, separator: char)
    : (r: Result<Config>)
    ensures r.Err? <==> ParseHost(annotations.host).Err?
    ensures r.Err? ==> r.error == ParseHost(annotations.host).error
    ensures r.Ok? ==> (r.value.host, r.value.port) == ParseHost(annotations.host).value
  {
    var hostPort := ParseHost(annotations.host);
    if hostPort.Err? then Err(hostPort.error)
    else
      Ok(Config(hostPort.value.0, hostPort.value.1,
                OrElse(annotations.contextPath, "/"),
                OrElse(annotations.resourceBases, ["target" + [separator] + "classes", "target" + [separator] + "test-classes"]),
                OrElse(annotations.includes, ["**/*Test.html", "**/*Test.htm"]),
                OrElse(annotations.excludes, []),
                OrElse(commandPatternProperty, DEFAULT_COMMAND_PATTERN),
                OrElse(annotations.testRunnerFilePath, "target" + [separator] + "js-testrunner")))
  }

  /** A class without annotations, and no command property, gets the Maven-layout defaults. */
  lemma DefaultConfiguration(separator: char)
    ensures Configure(Annotations(None, None, None, None, None, None), None, separator) ==
      Ok(Config("localhost", 9080, "/",
                ["target" + [separator] + "classes", "target" + [separator] + "test-classes"],
                ["**/*Test.html", "**/*Test.htm"], [], "phantomjs '%1$s' %2$s",
                "target" + [separator] + "js-testrunner"))
  {
  }

  /** Every annotation present, and the command property when set, is used unchanged. */
  lemma AnnotationsOverride(annotations: Annotations, commandPatternProperty: Option<string>, separator: char)
    requires ParseHost(annotations.host).Ok?
    ensures var r := Configure(annotations, commandPatternProperty, separator);
      r.Ok? &&
      (annotations.contextPath.Some? ==> r.value.contextPath == annotations.contextPath.value) &&
      (annotations.resourceBases.Some? ==> r.value.resourceBases == annotations.resourceBases.value) &&
      (annotations.includes.Some? ==> r.value.includes == annotations.includes.value) &&
      (annotations.excludes.Some? ==> r.value.excludes == annotations.excludes.value) &&
      (annotations.testRunnerFilePath.Some? ==> r.value.testRunnerFilePath == annotations.testRunnerFilePath.value) &&
      (commandPatternProperty.Some? ==> r.value.commandPattern == commandPatternProperty.value)
  {
  }

  /**
   * With the default pattern the browser hands the script one argument,
   * the URL list, where the script expects the post URL and the URL list:
   * the script prints its usage and exits without loading a page.
   */
  lemma DefaultCommandLoadsNoPage(scriptPath: string, urls: seq<Url>, fuel: nat)
    ensures CommandArgs(DEFAULT_COMMAND_PATTERN, scriptPath, urls).Ok?
    ensures var command := CommandArgs(DEFAULT_COMMAND_PATTERN, scriptPath, urls).value;
      |command| == 3 && RunQUnit.Start(command[2..]) == None && RunQUnit.Run(command[2..], fuel) == ([], true)
  {
    DefaultCommandArgs(scriptPath, urls);
  }

  // ---------------------------------------------------------------------
  // One child: a test page reported to JUnit.
  // ---------------------------------------------------------------------

  /** A failure reported for a page; `description` is the child's display name. */
  datatype JSTestFailure = JSTestFailure(description: string, url: Url, message: string)

  /** The header shown for a failure: the page's formatted path. */
  function Header(f: JSTestFailure): string
  {
    FormattedPath(f.url)
  }

  /** The trace shown for a failure: the message alone, no stack. */
  function Trace(f: JSTestFailure): string
  {
    f.message
  }

  /** The notifier event firing a failure. */
  function FailureEvent(f: JSTestFailure): Event
  {
    TestFailure(Header(f), Trace(f))
  }

  /** The failure shown once a header and trace reach the notifier names the page and carries the message. */
  lemma FailureShowsPage(url: Url, message: string)
    ensures var f := JSTestFailure(FormattedPath(url), url, message);
      FailureEvent(f) == TestFailure(f.description, message)
  {
  }

  /**
   * The failure message for a page's result: a timeout when there is no
   * result, the counts and the result's message when a test failed, and
   * none otherwise, whatever the number of passes.
   */
  function ChildFailure(result: Option<JSTestResult>): (r: Option<string>)
    ensures r.Some? <==> result.None? || result.value.failures > 0
  {
    match result
    case None => Some(TIMED_OUT)
    case Some(res) =>
      if res.failures > 0 then
        Some("Failures: " + IntToString(res.failures) + ", passes: " + IntToString(res.passes) + ":\n" + res.message)
      else None
  }

  /**
   * A failing result's message starts with its counts and ends with the
   * result's own message, so it can never be mistaken for a timeout.
   */
  lemma ChildFailureMessage(result: JSTestResult)
    requires result.failures > 0
    ensures var m := ChildFailure(Some(result)).value;
      m[..10] == "Failures: " && m[10..10 + |IntToString(result.failures)|] == IntToString(result.failures) &&
      |m| >= |result.message| && m[|m| - |result.message|..] == result.message &&
      m != TIMED_OUT
  {
    var m := ChildFailure(Some(result)).value;
    var f := IntToString(result.failures);
    var rest := ", passes: " + IntToString(result.passes) + ":\n" + result.message;
    assert m == "Failures: " + f + rest;
    assert m[0] == 'F' && TIMED_OUT[0] == 'T';
  }

  /** The notifier events for one page: started, at most one failure, finished. */
  function ChildEvents(url: Url, result: Option<JSTestResult>): seq<Event>
  {
    var name := FormattedPath(url);
    var failure := ChildFailure(result);
    [TestStarted(name)] +
      (if failure.Some? then [FailureEvent(JSTestFailure(name, url, failure.value))] else []) +
      [TestFinished(name)]
  }

  /**
   * A page is started first and finished last, under its formatted path,
   * with a failure between exactly when the result is missing or has
   * failures.
   */
  lemma ChildEventsBracketed(url: Url, result: Option<JSTestResult>)
    ensures var ev := ChildEvents(url, result);
      var name := FormattedPath(url);
      ev[0] == TestStarted(name) && ev[|ev| - 1] == TestFinished(name) &&
      (|ev| == 3 <==> result.None? || result.value.failures > 0) &&
      (|ev| == 2 <==> result.Some? && result.value.failures <= 0) &&
      (|ev| == 3 ==> ev[1] == TestFailure(name, ChildFailure(result).value)) &&
      (result.None? ==> |ev| == 3 && ev[1] == TestFailure(name, TIMED_OUT))
  {
  }

  /** The answer the suite service gives for a page: (url, producer available, timeout) to a result. */
  type Answer = (Url, bool, int) -> Option<JSTestResult>

  /**
   * The notifier events of the pages, one after another. The service is
   * asked afresh for each page whether the producer is available: the pages
   * with an index below `runningUntil` find the process running, the rest
   * find it gone.
   */
  function ChildrenEvents(answer: Answer, runningUntil: nat, urls: seq<Url>): seq<Event>
  {
    if |urls| == 0 then []
    else
      var last := urls[|urls| - 1];
      ChildrenEvents(answer, runningUntil, urls[..|urls| - 1]) + ChildEvents(last, answer(last, |urls| - 1 < runningUntil, TIMEOUT_SECONDS))
  }

  lemma ChildrenEventsSnoc(answer: Answer, runningUntil: nat, urls: seq<Url>, i: nat)
    requires i < |urls|
    ensures ChildrenEvents(answer, runningUntil, urls[..i + 1]) ==
      ChildrenEvents(answer, runningUntil, urls[..i]) + ChildEvents(urls[i], answer(urls[i], i < runningUntil, TIMEOUT_SECONDS))
  {
    assert urls[..i + 1][..i] == urls[..i];
  }

  /**
   * When the process is gone from page `k` on, the class log holds the
   * first `k` pages run against a live producer, then the rest run against
   * none.
   */
  lemma {:induction false} ChildrenEventsExit(answer: Answer, k: nat, urls: seq<Url>)
    requires k <= |urls|
    ensures ChildrenEvents(answer, k, urls) == ChildrenEvents(answer, k, urls[..k]) + ChildrenEvents(answer, 0, urls[k..])
  {
    if |urls| == k {
      assert urls[..k] == urls;
      assert urls[k..] == [];
    } else {
      ChildrenEventsExit(answer, k, urls[..|urls| - 1]);
      ChildrenEventsExitStep(answer, k, urls);
    }
  }

  /** One page past the exit: the inductive step of ChildrenEventsExit. */
  lemma ChildrenEventsExitStep(answer: Answer, k: nat, urls: seq<Url>)
    requires k < |urls|
    requires var init := urls[..|urls| - 1];
      ChildrenEvents(answer, k, init) == ChildrenEvents(answer, k, init[..k]) + ChildrenEvents(answer, 0, init[k..])
    ensures ChildrenEvents(answer, k, urls) == ChildrenEvents(answer, k, urls[..k]) + ChildrenEvents(answer, 0, urls[k..])
  {
    var n := |urls|;
    var init := urls[..n - 1];
    assert init[..k] == urls[..k];
    ExitedLast(answer, k, urls);
    ExitedSuffixLast(answer, k, urls);
    Regroup(ChildrenEvents(answer, k, urls), ChildrenEvents(answer, k, init),
      ChildrenEvents(answer, k, urls[..k]), ChildrenEvents(answer, 0, init[k..]), ChildrenEvents(answer, 0, urls[k..]),
      ChildEvents(urls[n - 1], answer(urls[n - 1], false, TIMEOUT_SECONDS)));
  }

  lemma Regroup(whole: seq<Event>, init: seq<Event>, a: seq<Event>, b: seq<Event>, rest: seq<Event>, last: seq<Event>)
    requires whole == init + last && init == a + b && rest == b + last
    ensures whole == a + rest
  {
  }

  /** The last page, at or past the exit, finds the producer gone. */
  lemma ExitedLast(answer: Answer, k: nat, urls: seq<Url>)
    requires k < |urls|
    ensures var n := |urls|;
      ChildrenEvents(answer, k, urls) ==
        ChildrenEvents(answer, k, urls[..n - 1]) + ChildEvents(urls[n - 1], answer(urls[n - 1], false, TIMEOUT_SECONDS))
  {
  }

  /** Past the exit, a page's events do not depend on where the run of such pages starts. */
  lemma ExitedSuffixLast(answer: Answer, k: nat, urls: seq<Url>)
    requires k < |urls|
    ensures var n := |urls|;
      ChildrenEvents(answer, 0, urls[k..]) ==
        ChildrenEvents(answer, 0, urls[..n - 1][k..]) + ChildEvents(urls[n - 1], answer(urls[n - 1], false, TIMEOUT_SECONDS))
  {
    var rest := urls[k..];
    assert rest[..|rest| - 1] == urls[..|urls| - 1][k..];
  }

  /** A log that holds the first `i` pages' events, followed by page `i`'s, holds the first `i + 1` pages' events. */
  lemma ChildrenEventsLogged(log: seq<Event>, answer: Answer, runningUntil: nat, urls: seq<Url>, i: nat)
    requires i < |urls|
    ensures log + ChildrenEvents(answer, runningUntil, urls[..i]) +
      ChildEvents(urls[i], answer(urls[i], i < runningUntil, TIMEOUT_SECONDS)) ==
      log + ChildrenEvents(answer, runningUntil, urls[..i + 1])
  {
    ChildrenEventsSnoc(answer, runningUntil, urls, i);
    AppendAssociates(log, ChildrenEvents(answer, runningUntil, urls[..i]),
      ChildEvents(urls[i], answer(urls[i], i < runningUntil, TIMEOUT_SECONDS)));
  }

  lemma AppendAssociates(a: seq<Event>, b: seq<Event>, c: seq<Event>)
    ensures a + b + c == a + (b + c)
  {
  }

  lemma AppendAssociates4(a: seq<Event>, b: seq<Event>, c: seq<Event>, d: seq<Event>)
    ensures a + b + c + d == a + (b + c + d)
  {
  }

  /** The display names of the events `select` picks, in order. */
  function Selected(events: seq<Event>, select: Event -> Option<string>): (r: seq<string>)
    ensures |r| <= |events|
  {
    if |events| == 0 then []
    else
      var s := select(events[|events| - 1]);
      Selected(events[..|events| - 1], select) + (if s.Some? then [s.value] else [])
  }

  lemma {:induction false} SelectedAppend(a: seq<Event>, b: seq<Event>, select: Event -> Option<string>)
    ensures Selected(a + b, select) == Selected(a, select) + Selected(b, select)
  {
    if |b| == 0 {
      assert a + b == a;
    } else {
      SelectedAppend(a, b[..|b| - 1], select);
      assert (a + b)[..|a + b| - 1] == a + b[..|b| - 1];
    }
  }

  function StartedName(e: Event): Option<string>
  {
    if e.TestStarted? then Some(e.name) else None
  }

  function FinishedName(e: Event): Option<string>
  {
    if e.TestFinished? then Some(e.name) else None
  }

  function FailureHeader(e: Event): Option<string>
  {
    if e.TestFailure? then Some(e.header) else None
  }

  lemma SelectedOne(e: Event, select: Event -> Option<string>)
    ensures Selected([e], select) == if select(e).Some? then [select(e).value] else []
  {
    assert [e][..0] == [];
  }

  lemma SelectedThree(a: seq<Event>, b: seq<Event>, c: seq<Event>, select: Event -> Option<string>)
    ensures Selected(a + b + c, select) == Selected(a, select) + Selected(b, select) + Selected(c, select)
  {
    SelectedAppend(a + b, c, select);
    SelectedAppend(a, b, select);
  }

  /**
   * Events of the shape started, optional failure, finished: the page is
   * started once and finished once, and its failure header, if any, is picked.
   */
  lemma PageNames(name: string, mid: seq<Event>)
    requires mid == [] || (|mid| == 1 && mid[0].TestFailure? && mid[0].header == name)
    ensures var ev := [TestStarted(name)] + mid + [TestFinished(name)];
      Selected(ev, StartedName) == [name] && Selected(ev, FinishedName) == [name] &&
      Selected(ev, FailureHeader) == if mid == [] then [] else [name]
  {
    var first, last := [TestStarted(name)], [TestFinished(name)];
    SelectedThree(first, mid, last, StartedName);
    SelectedThree(first, mid, last, FinishedName);
    SelectedThree(first, mid, last, FailureHeader);
    SelectedOne(TestStarted(name), StartedName);
    SelectedOne(TestStarted(name), FinishedName);
    SelectedOne(TestStarted(name), FailureHeader);
    SelectedOne(TestFinished(name), StartedName);
    SelectedOne(TestFinished(name), FinishedName);
    SelectedOne(TestFinished(name), FailureHeader);
    if mid != [] {
      assert mid == [mid[0]];
      SelectedOne(mid[0], StartedName);
      SelectedOne(mid[0], FinishedName);
      SelectedOne(mid[0], FailureHeader);
    }
  }

  /** One page's events start it once and finish it once. */
  lemma ChildNames(url: Url, result: Option<JSTestResult>)
    ensures Selected(ChildEvents(url, result), StartedName) == [FormattedPath(url)]
    ensures Selected(ChildEvents(url, result), FinishedName) == [FormattedPath(url)]
    ensures Selected(ChildEvents(url, result), FailureHeader) ==
      if ChildFailure(result).Some? then [FormattedPath(url)] else []
  {
    var name := FormattedPath(url);
    var failure := ChildFailure(result);
    var mid := if failure.Some? then [FailureEvent(JSTestFailure(name, url, failure.value))] else [];
    assert ChildEvents(url, result) == [TestStarted(name)] + mid + [TestFinished(name)];
    PageNames(name, mid);
  }

  /** The last page's events come after the other pages'. */
  lemma ChildrenSelectedSnoc(answer: Answer, runningUntil: nat, urls: seq<Url>, select: Event -> Option<string>)
    requires |urls| > 0
    ensures var last := urls[|urls| - 1];
      Selected(ChildrenEvents(answer, runningUntil, urls), select) ==
        Selected(ChildrenEvents(answer, runningUntil, urls[..|urls| - 1]), select) +
        Selected(ChildEvents(last, answer(last, |urls| - 1 < runningUntil, TIMEOUT_SECONDS)), select)
  {
    var last := urls[|urls| - 1];
    SelectedAppend(ChildrenEvents(answer, runningUntil, urls[..|urls| - 1]), ChildEvents(last, answer(last, |urls| - 1 < runningUntil, TIMEOUT_SECONDS)), select);
  }

  /** Every page is started exactly once, in order. */
  lemma {:induction false} ChildrenStarted(answer: Answer, runningUntil: nat, urls: seq<Url>)
    ensures Selected(ChildrenEvents(answer, runningUntil, urls), StartedName) == Map(FormattedPath, urls)
  {
    if |urls| > 0 {
      var init := urls[..|urls| - 1];
      var last := urls[|urls| - 1];
      ChildrenStarted(answer, runningUntil, init);
      ChildNames(last, answer(last, |urls| - 1 < runningUntil, TIMEOUT_SECONDS));
      ChildrenSelectedSnoc(answer, runningUntil, urls, StartedName);
      assert Map(FormattedPath, urls) == Map(FormattedPath, init) + [FormattedPath(last)];
    }
  }

  /** Every page is finished exactly once, in order. */
  lemma {:induction false} ChildrenFinished(answer: Answer, runningUntil: nat, urls: seq<Url>)
    ensures Selected(ChildrenEvents(answer, runningUntil, urls), FinishedName) == Map(FormattedPath, urls)
  {
    if |urls| > 0 {
      var init := urls[..|urls| - 1];
      var last := urls[|urls| - 1];
      ChildrenFinished(answer, runningUntil, init);
      ChildNames(last, answer(last, |urls| - 1 < runningUntil, TIMEOUT_SECONDS));
      ChildrenSelectedSnoc(answer, runningUntil, urls, FinishedName);
      assert Map(FormattedPath, urls) == Map(FormattedPath, init) + [FormattedPath(last)];
    }
  }

  /** A failure is reported for exactly the failing or timed-out pages, in order. */
  lemma {:induction false} ChildrenFailures(answer: Answer, runningUntil: nat, urls: seq<Url>)
    ensures Selected(ChildrenEvents(answer, runningUntil, urls), FailureHeader) ==
      Map(FormattedPath, FailingPages(answer, runningUntil, urls))
  {
    if |urls| > 0 {
      var init := urls[..|urls| - 1];
      var last := urls[|urls| - 1];
      var result := answer(last, |urls| - 1 < runningUntil, TIMEOUT_SECONDS);
      ChildrenFailures(answer, runningUntil, init);
      ChildNames(last, result);
      ChildrenSelectedSnoc(answer, runningUntil, urls, FailureHeader);
      if ChildFailure(result).Some? {
        MapSnoc(FormattedPath, FailingPages(answer, runningUntil, init), last);
      }
    }
  }

  /**
   * Over all pages, every page is started and finished exactly once and in
   * order, and a failure is reported for exactly the pages whose result is
   * missing or failing.
   */
  lemma ChildrenNames(answer: Answer, runningUntil: nat, urls: seq<Url>)
    ensures Selected(ChildrenEvents(answer, runningUntil, urls), StartedName) == Map(FormattedPath, urls)
    ensures Selected(ChildrenEvents(answer, runningUntil, urls), FinishedName) == Map(FormattedPath, urls)
    ensures Selected(ChildrenEvents(answer, runningUntil, urls), FailureHeader) ==
      Map(FormattedPath, FailingPages(answer, runningUntil, urls))
  {
    ChildrenStarted(answer, runningUntil, urls);
    ChildrenFinished(answer, runningUntil, urls);
    ChildrenFailures(answer, runningUntil, urls);
  }

  /** The pages that end in a reported failure, in order. */
  function FailingPages(answer: Answer, runningUntil: nat, urls: seq<Url>): seq<Url>
  {
    if |urls| == 0 then []
    else
      var last := urls[|urls| - 1];
      FailingPages(answer, runningUntil, urls[..|urls| - 1]) +
        (if ChildFailure(answer(last, |urls| - 1 < runningUntil, TIMEOUT_SECONDS)).Some? then [last] else [])
  }

  // ---------------------------------------------------------------------
  // The class block: set-up, the children, and tear-down in `finally`.
  // ---------------------------------------------------------------------

  /**
   * The notifier log of a whole class block: the result server is started;
   * when the execution server launched `before`'s command the pages run;
   * the process, if any, is destroyed and the result server stopped.
   */
  function ClassEvents(before: Result<seq<string>>, children: seq<Event>, hadProcess: bool): seq<Event>
  {
    [StartWebServer] +
      (if before.Ok? then [Spawn(before.value)] + children else []) +
      (if before.Ok? || hadProcess then [Destroy] else []) +
      [StopWebServer]
  }

  /** A class block's log as set-up, pages and tear-down. */
  lemma ClassEventsParts(before: Result<seq<string>>, children: seq<Event>, hadProcess: bool)
    ensures ClassEvents(before, children, hadProcess) ==
      ([StartWebServer] + (if before.Ok? then [Spawn(before.value)] else [])) +
      (if before.Ok? then children else []) +
      ((if before.Ok? || hadProcess then [Destroy] else []) + [StopWebServer])
  {
  }

  /**
   * Tear-down always happens: the log ends with the result server's stop.
   * The pages are run, each started and finished once and in order,
   * exactly when set-up succeeded.
   */
  lemma ClassEventsShape(before: Result<seq<string>>, answer: Answer, runningUntil: nat, urls: seq<Url>, hadProcess: bool)
    ensures var ev := ClassEvents(before, ChildrenEvents(answer, runningUntil, urls), hadProcess);
      ev[0] == StartWebServer && ev[|ev| - 1] == StopWebServer &&
      Selected(ev, StartedName) == (if before.Ok? then Map(FormattedPath, urls) else []) &&
      Selected(ev, FinishedName) == (if before.Ok? then Map(FormattedPath, urls) else [])
  {
    ClassEventsEnds(before, ChildrenEvents(answer, runningUntil, urls), hadProcess);
    ClassStarted(before, answer, runningUntil, urls, hadProcess);
    ClassFinished(before, answer, runningUntil, urls, hadProcess);
  }

  lemma ClassStarted(before: Result<seq<string>>, answer: Answer, runningUntil: nat, urls: seq<Url>, hadProcess: bool)
    ensures Selected(ClassEvents(before, ChildrenEvents(answer, runningUntil, urls), hadProcess), StartedName) ==
      if before.Ok? then Map(FormattedPath, urls) else []
  {
    var children := ChildrenEvents(answer, runningUntil, urls);
    ChildrenStarted(answer, runningUntil, urls);
    ClassSelected(before, children, hadProcess, StartedName);
  }

  lemma ClassFinished(before: Result<seq<string>>, answer: Answer, runningUntil: nat, urls: seq<Url>, hadProcess: bool)
    ensures Selected(ClassEvents(before, ChildrenEvents(answer, runningUntil, urls), hadProcess), FinishedName) ==
      if before.Ok? then Map(FormattedPath, urls) else []
  {
    var children := ChildrenEvents(answer, runningUntil, urls);
    ChildrenFinished(answer, runningUntil, urls);
    ClassSelected(before, children, hadProcess, FinishedName);
  }

  /** A class block's log starts with the result server's start and ends with its stop. */
  lemma ClassEventsEnds(before: Result<seq<string>>, children: seq<Event>, hadProcess: bool)
    ensures var ev := ClassEvents(before, children, hadProcess);
      ev[0] == StartWebServer && ev[|ev| - 1] == StopWebServer
  {
  }

  /** A selector that picks no server or process event sees only the pages' events in a class block. */
  lemma ClassSelected(before: Result<seq<string>>, children: seq<Event>, hadProcess: bool, select: Event -> Option<string>)
    requires select(StartWebServer).None? && select(StopWebServer).None? && select(Destroy).None?
    requires before.Ok? ==> select(Spawn(before.value)).None?
    ensures Selected(ClassEvents(before, children, hadProcess), select) == if before.Ok? then Selected(children, select) else []
  {
    var head := if before.Ok? then [Spawn(before.value)] + children else [];
    var tail := (if before.Ok? || hadProcess then [Destroy] else []) + [StopWebServer];
    assert ClassEvents(before, children, hadProcess) == [StartWebServer] + head + tail;
    SelectedThree([StartWebServer], head, tail, select);
    SelectedOne(StartWebServer, select);
    TailSelected(before.Ok? || hadProcess, select);
    if before.Ok? {
      SelectedAppend([Spawn(before.value)], children, select);
      SelectedOne(Spawn(before.value), select);
    }
  }

  lemma TailSelected(destroyed: bool, select: Event -> Option<string>)
    requires select(StopWebServer).None? && select(Destroy).None?
    ensures Selected((if destroyed then [Destroy] else []) + [StopWebServer], select) == []
  {
    var destroy := if destroyed then [Destroy] else [];
    SelectedAppend(destroy, [StopWebServer], select);
    SelectedOne(StopWebServer, select);
    if destroyed {
      SelectedOne(Destroy, select);
    }
  }

  /** A JUnit runner for one test class, over the suite service built from its configuration. */
  class JSTestSuiteRunner {
    const service: JSTestSuiteRunnerService
    /** The test pages, one child each. */
    const children: seq<Url>
    /** JUnit's run notifier, recording on the servers' log. */
    const notifier: EventLog

    predicate Valid()
      reads this, service, service.resultServer, service.resultServer.webServer
    {
      service.Valid() && notifier == service.executionServer.log
    }

    constructor (service: JSTestSuiteRunnerService, children: seq<Url>, notifier: EventLog)
      requires service.Valid() && notifier == service.executionServer.log
      ensures this.service == service && this.children == children && this.notifier == notifier
      ensures Valid()
    {
      this.service := service;
      this.children := children;
      this.notifier := notifier;
    }

    /** What set-up yields: the launched command, or why it failed. */
    function SetUp(): Result<seq<string>>
    {
      if service.resultServer.webServer.startFails then Err(WebServerStartFailure)
      else service.executionServer.Launch()
    }

    /** What tear-down yields, once the result server has been started. */
    function TearDown(): Outcome
    {
      if service.resultServer.webServer.stopFails then Fail(WebServerStopFailure) else Pass
    }

    /** Whether the execution server's process is there and has not exited. */
    function Available(): bool
      reads service.executionServer
    {
      service.executionServer.process.Some? && !service.executionServer.process.value.exited
    }

    /** What the suite service answers for a page. */
    function Answers(): Answer
    {
      service.resultServer.resultHandler.answer
    }

    /**
     * `runChild`: fire started, ask the service for the page's result,
     * fire the failure it calls for, if any, and fire finished.
     */
    method RunChild(url: Url)
      modifies notifier
      ensures notifier.events == old(notifier.events) + ChildEvents(url, Answers()(url, Available(), TIMEOUT_SECONDS))
    {
      var name := FormattedPath(url);
      notifier.Record(TestStarted(name));
      var result := service.RunTest(url);
      var failure := ChildFailure(result);
      if failure.Some? {
        notifier.Record(FailureEvent(JSTestFailure(name, url, failure.value)));
      }
      notifier.Record(TestFinished(name));
    }

    /**
     * One page of `runChildren`, where `process` is the execution server's
     * process as the pages began: the process exits just before the page
     * with index `exitsAt`, and then the page runs, finding the producer
     * available iff its index is below `runningUntil`.
     */
    method RunPage(i: nat, exitsAt: nat, ghost process: Option<Process>, ghost runningUntil: nat)
      requires i < |children|
      requires runningUntil == if process.Some? && !process.value.exited then exitsAt else 0
      requires service.executionServer.process.Some? == process.Some?
      requires process.Some? ==>
        service.executionServer.process.value == process.value.(exited := process.value.exited || exitsAt < i)
      modifies notifier, service.executionServer
      ensures service.executionServer.process.Some? == process.Some?
      ensures process.Some? ==>
        service.executionServer.process.value == process.value.(exited := process.value.exited || exitsAt < i + 1)
      ensures service.executionServer.testRunnerFile == old(service.executionServer.testRunnerFile)
      ensures notifier.events == old(notifier.events) +
        ChildEvents(children[i], Answers()(children[i], i < runningUntil, TIMEOUT_SECONDS))
    {
      if i == exitsAt && service.executionServer.process.Some? {
        service.executionServer.ProcessExits();
      }
      RunChild(children[i]);
    }

    /**
     * Run every child in order. The process may exit while the pages run:
     * it is found gone from the page with index `exitsAt` on, so when it was
     * running at the start, exactly the pages before that index find the
     * producer available.
     */
    method RunChildren(exitsAt: nat)
      modifies notifier, service.executionServer
      ensures notifier.events == old(notifier.events) +
        ChildrenEvents(Answers(), if old(Available()) then exitsAt else 0, children)
      ensures service.executionServer.process.Some? == old(service.executionServer.process).Some?
      ensures old(service.executionServer.process).Some? ==>
        var p := old(service.executionServer.process).value;
        service.executionServer.process.value == p.(exited := p.exited || exitsAt < |children|)
    {
      var server, log := service.executionServer, notifier;
      ghost var answer, process, start := Answers(), server.process, log.events;
      ghost var runningUntil := if process.Some? && !process.value.exited then exitsAt else 0;
      var i := 0;
      while i < |children|
        invariant 0 <= i <= |children|
        invariant server.process.Some? == process.Some?
        invariant process.Some? ==> server.process.value == process.value.(exited := process.value.exited || exitsAt < i)
        invariant log.events == start + ChildrenEvents(answer, runningUntil, children[..i])
      {
        RunPage(i, exitsAt, process, runningUntil);
        ChildrenEventsLogged(start, answer, runningUntil, children, i);
        i := i + 1;
      }
      assert children[..i] == children;
    }

    /** `beforeTests`: the suite service's set-up, before the children run. */
    method BeforeTests() returns (before: Outcome)
      requires Valid()
      modifies service.resultServer, service.resultServer.webServer, service.executionServer,
        service.executionServer.fs, notifier
      ensures Valid() && service.resultServer.initedWebServer
      ensures before == if SetUp().Ok? then Pass else Fail(SetUp().error)
      ensures notifier.events == old(notifier.events) +
        ([StartWebServer] + (if SetUp().Ok? then [Spawn(SetUp().value)] else []))
      ensures SetUp().Ok? ==> Available() && service.executionServer.process.Some?
      ensures SetUp().Err? ==> service.executionServer.process == old(service.executionServer.process)
    {
      before := service.BeforeTests();
    }

    /** `afterTests`: the suite service's tear-down, run in `finally`. */
    method AfterTests() returns (after: Outcome)
      requires Valid() && service.resultServer.initedWebServer
      modifies service.executionServer, notifier
      ensures Valid()
      ensures after == TearDown()
      ensures notifier.events == old(notifier.events) +
        ((if old(service.executionServer.process).Some? then [Destroy] else []) + [StopWebServer])
    {
      after := service.AfterTests();
    }

    /**
     * `classBlock`: set up, run the children only if set-up succeeded, and
     * tear down in `finally`. The outcome is the tear-down's failure if it
     * fails, and otherwise the set-up's.
     */
    method ClassBlock(exitsAt: nat) returns (r: Outcome)
      requires Valid()
      modifies service.resultServer, service.resultServer.webServer, service.executionServer,
        service.executionServer.fs, notifier
      ensures Valid()
      ensures r == TryFinally(if SetUp().Ok? then Pass else Fail(SetUp().error), TearDown())
      ensures notifier.events == old(notifier.events) +
        ClassEvents(SetUp(), ChildrenEvents(Answers(), exitsAt, children), old(service.executionServer.process).Some?)
    {
      ghost var hadProcess := old(service.executionServer.process).Some?;
      ghost var setUp := [StartWebServer] + (if SetUp().Ok? then [Spawn(SetUp().value)] else []);
      var before := BeforeTests();
      ghost var started := notifier.events;
      ghost var ran: seq<Event> := [];
      if before.Pass? {
        RunChildren(exitsAt);
        ran := ChildrenEvents(Answers(), exitsAt, children);
      }
      ghost var stopped := (if before.Pass? || hadProcess then [Destroy] else []) + [StopWebServer];
      var after := AfterTests();
      r := TryFinally(before, after);
      assert notifier.events == started + ran + stopped;
      ClassEventsParts(SetUp(), ChildrenEvents(Answers(), exitsAt, children), hadProcess);
      AppendAssociates4(old(notifier.events), setUp, ran, stopped);
    }
  }

  /**
   * The runner's constructor: settle the configuration, scan for the test
   * pages, and build the result server, the execution server and the suite
   * service over them. A malformed host fails before anything is built.
   */
  method NewRunner(annotations: Annotations, commandPatternProperty: Option<string>, separator: char,
                   scanner: Scanner, answer: Answer, startFails: bool, stopFails: bool,
                   bootstrap: seq<Byte>, workingDirectory: string, executables: set<string>, fs: FileSystem)
    returns (r: Result<JSTestSuiteRunner>)
    ensures r.Err? <==> Configure(annotations, commandPatternProperty, separator).Err?
    ensures r.Err? ==> r.error == Configure(annotations, commandPatternProperty, separator).error
    ensures r.Ok? ==>
      var c := Configure(annotations, commandPatternProperty, separator).value;
      var runner := r.value;
      fresh(runner) && runner.Valid() && runner.notifier.events == [] &&
      runner.children == ScannedUrls(c.host, c.port, c.resourceBases, c.includes, c.excludes, scanner, separator) &&
      runner.service.resultServer.port == c.port &&
      runner.service.resultServer.contextPath == c.contextPath &&
      runner.service.resultServer.resourceBases == c.resourceBases &&
      !runner.service.resultServer.initedWebServer &&
      runner.Answers() == answer &&
      runner.service.executionServer.testRunnerFilePath == c.testRunnerFilePath &&
      runner.service.executionServer.commandPattern == c.commandPattern &&
      runner.service.executionServer.urls == runner.children &&
      runner.service.executionServer.process == None &&
      runner.service.executionServer.fs == fs
  {
    var config := Configure(annotations, commandPatternProperty, separator);
    if config.Err? {
      return Err(config.error);
    }
    var c := config.value;
    var urls := ScanTestFiles(c.host, c.port, c.resourceBases, c.includes, c.excludes, scanner, separator);
    var log := new EventLog();
    var webServer := new WebServer(startFails, stopFails, log);
    var handler := new JSTestResultHandler(answer);
    var resultServer := new JSTestResultServer(webServer, handler, c.port, c.contextPath, c.resourceBases);
    var executionServer := new JSTestExecutionServer(c.testRunnerFilePath, c.commandPattern, urls,
                                                     bootstrap, workingDirectory, executables, fs, log);
    var service := new JSTestSuiteRunnerService(resultServer, executionServer);
    var runner := new JSTestSuiteRunner(service, urls, log);
    r := Ok(runner);
  }
}
