/**
 * The bootstrap script the headless browser runs. Its state survives page
 * loads as one string: the URL results are posted to, the page being
 * tested and the queue of pages still to load, ending in an empty-string
 * sentinel. On every page load the script either starts the queue or, once
 * QUnit reports completion, posts the page's results and loads the next
 * page, exiting when only the sentinel is left.
 */
module RunQUnit {
  import opened Outcomes
  import opened Strings

  const USAGE: string := "Usage: run-qunit.js notifierPostURL URL[,URL]*"
  const NO_RESULTS: string := "Cannot find #qunit-tests element. Skipping test results."

  // ---------------------------------------------------------------------
  // The persisted state and the URL queue.
  // ---------------------------------------------------------------------

  /** The state string: post URL, current page and the queue, the queue as JavaScript prints an array. */
  function EncodeState(notifierPostUrl: string, testUrl: string, testUrls: seq<string>): string
  {
    notifierPostUrl + " " + testUrl + " " + Join(testUrls, ',')
  }

  /** The queue after loadNextTest: the first element is removed unless it is the only one. */
  function Rest(testUrls: seq<string>): (r: seq<string>)
    requires |testUrls| >= 1
    ensures |r| >= 1
    ensures |testUrls| > 1 ==> [testUrls[0]] + r == testUrls
    ensures |testUrls| == 1 ==> r == testUrls
  {
    if |testUrls| > 1 then testUrls[1..] else testUrls
  }

  /** The queue requestFirstTest builds: the comma-separated URLs and the sentinel. */
  function FirstQueue(urlList: string): (r: seq<string>)
    ensures |r| >= 2 && r[|r| - 1] == ""
  {
    Split(urlList, ',') + [""]
  }

  /** A string neither space nor comma can break apart. */
  predicate Atomic(s: string)
  {
    ' ' !in s && ',' !in s
  }

  /** The state always splits into at least three space-separated fields. */
  lemma {:induction false} StateFields(notifierPostUrl: string, testUrl: string, testUrls: seq<string>)
    ensures |Split(EncodeState(notifierPostUrl, testUrl, testUrls), ' ')| >= 3
  {
    var s := EncodeState(notifierPostUrl, testUrl, testUrls);
    SplitLength(s, ' ');
    assert multiset(s)[' '] >= 2 by {
      assert s == notifierPostUrl + [' '] + testUrl + [' '] + Join(testUrls, ',');
    }
  }

  /** A character that is neither the separator nor in any element is not in their join. */
  lemma {:induction false} NotInJoin(xs: seq<string>, sep: char, c: char)
    requires c != sep && forall i :: 0 <= i < |xs| ==> c !in xs[i]
    ensures c !in Join(xs, sep)
  {
    if |xs| > 1 {
      NotInJoin(xs[1..], sep, c);
    }
  }

  /**
   * Parsing the state as processTestAndRequestNext does recovers what
   * loadNextTest stored, provided the URLs hold no space and the queued
   * ones no comma.
   */
  lemma ParseState(notifierPostUrl: string, testUrl: string, testUrls: seq<string>)
    requires ' ' !in notifierPostUrl && ' ' !in testUrl
    requires |testUrls| >= 1 && forall i :: 0 <= i < |testUrls| ==> Atomic(testUrls[i])
    ensures var state := Split(EncodeState(notifierPostUrl, testUrl, testUrls), ' ');
      |state| == 3 && state[0] == notifierPostUrl && state[1] == testUrl &&
      Split(state[2], ',') == testUrls
  {
    var q := Join(testUrls, ',');
    NotInJoin(testUrls, ',', ' ');
    var fields := [notifierPostUrl, testUrl, q];
    assert Join(fields, ' ') == EncodeState(notifierPostUrl, testUrl, testUrls) by {
      assert fields[1..] == [testUrl, q];
      assert fields[1..][1..] == [q];
      assert Join(fields[1..], ' ') == testUrl + [' '] + q;
      assert Join(fields, ' ') == notifierPostUrl + [' '] + (testUrl + [' '] + q);
    }
    SplitJoin(fields, ' ');
    SplitJoin(testUrls, ',');
  }

  /**
   * requestFirstTest on the script's arguments: None when there are not
   * exactly two (usage and exit); otherwise the page loaded first and the
   * state stored.
   */
  function Start(args: seq<string>): (r: Option<(string, string)>)
    ensures r.Some? ==> |Split(r.value.1, ' ')| >= 3
  {
    if |args| != 2 then None
    else
      var q := FirstQueue(args[1]);
      StateFields(args[0], q[0], Rest(q));
      Some((q[0], EncodeState(args[0], q[0], Rest(q))))
  }

  /**
   * One completed page: None when the parsed queue holds one element
   * (exit); otherwise the next page loaded and the new state.
   */
  function Advance(state: string): (r: Option<(string, string)>)
    requires |Split(state, ' ')| >= 3
    ensures r.Some? ==> |Split(r.value.1, ' ')| >= 3
  {
    var fields := Split(state, ' ');
    var q := Split(fields[2], ',');
    if |q| == 1 then None
    else
      StateFields(fields[0], q[0], Rest(q));
      Some((q[0], EncodeState(fields[0], q[0], Rest(q))))
  }

  /** The pages loaded from `state` on, completing up to `fuel` pages, and whether the script exited. */
  function Drive(state: string, fuel: nat): (seq<string>, bool)
    requires |Split(state, ' ')| >= 3
    decreases fuel
  {
    if fuel == 0 then ([], false)
    else
      var next := Advance(state);
      if next.None? then ([], true)
      else
        var rest := Drive(next.value.1, fuel - 1);
        ([next.value.0] + rest.0, rest.1)
  }

  /** The whole run from the arguments: the pages loaded in order and whether the script exited. */
  function Run(args: seq<string>, fuel: nat): (seq<string>, bool)
  {
    var first := Start(args);
    if first.None? then ([], true)
    else
      var rest := Drive(first.value.1, fuel);
      ([first.value.0] + rest.0, rest.1)
  }

  /** With an argument count other than two the script loads nothing and exits. */
  lemma UsageExit(args: seq<string>, fuel: nat)
    requires |args| != 2
    ensures Run(args, fuel) == ([], true)
  {
  }

  /** The state after loading the k-th of `urls` (counting from one). */
  function StateAt(notifierPostUrl: string, urls: seq<string>, k: nat): string
    requires 1 <= k <= |urls|
  {
    EncodeState(notifierPostUrl, urls[k - 1], urls[k..] + [""])
  }

  /** Once the k-th page completes, the (k+1)-th is loaded, or the script exits after the last. */
  lemma AdvanceAt(notifierPostUrl: string, urls: seq<string>, k: nat)
    requires ' ' !in notifierPostUrl
    requires forall i :: 0 <= i < |urls| ==> Atomic(urls[i])
    requires 1 <= k <= |urls|
    ensures |Split(StateAt(notifierPostUrl, urls, k), ' ')| >= 3
    ensures k == |urls| ==> Advance(StateAt(notifierPostUrl, urls, k)) == None
    ensures k < |urls| ==>
      Advance(StateAt(notifierPostUrl, urls, k)) == Some((urls[k], StateAt(notifierPostUrl, urls, k + 1)))
  {
    var rem := urls[k..] + [""];
    assert forall i :: 0 <= i < |rem| ==> Atomic(rem[i]) by {
      forall i | 0 <= i < |rem| ensures Atomic(rem[i]) {
        if i < |urls| - k { assert rem[i] == urls[k + i]; }
      }
    }
    ParseState(notifierPostUrl, urls[k - 1], rem);
    if k < |urls| {
      assert rem[0] == urls[k];
      assert rem[1..] == urls[k + 1..] + [""];
    }
  }

  /** From the k-th page on, the remaining pages load in order and then the script exits. */
  lemma {:induction false} DriveFrom(notifierPostUrl: string, urls: seq<string>, k: nat)
    requires ' ' !in notifierPostUrl
    requires forall i :: 0 <= i < |urls| ==> Atomic(urls[i])
    requires 1 <= k <= |urls|
    ensures |Split(StateAt(notifierPostUrl, urls, k), ' ')| >= 3
    ensures Drive(StateAt(notifierPostUrl, urls, k), |urls| - k + 1) == (urls[k..], true)
    decreases |urls| - k
  {
    AdvanceAt(notifierPostUrl, urls, k);
    if k < |urls| {
      DriveFrom(notifierPostUrl, urls, k + 1);
      assert [urls[k]] + urls[k + 1..] == urls[k..];
    }
  }

  /** A run is the first page and then the pages driven from the state it stored. */
  lemma RunOf(args: seq<string>, fuel: nat, state: string, pages: seq<string>)
    requires |pages| >= 1 && Start(args) == Some((pages[0], state))
    requires |Split(state, ' ')| >= 3 && Drive(state, fuel) == (pages[1..], true)
    ensures Run(args, fuel) == (pages, true)
  {
    assert [pages[0]] + pages[1..] == pages;
  }

  /** The first queue of a comma-joined list is that list and the sentinel. */
  lemma FirstQueueOfJoin(urls: seq<string>)
    requires |urls| >= 1 && forall i :: 0 <= i < |urls| ==> Atomic(urls[i])
    ensures FirstQueue(Join(urls, ',')) == urls + [""]
  {
    SplitJoin(urls, ',');
  }

  lemma RestOfQueue(urls: seq<string>)
    requires |urls| >= 1
    ensures Rest(urls + [""]) == urls[1..] + [""]
  {
    assert (urls + [""])[1..] == urls[1..] + [""];
  }

  /** requestFirstTest on the post URL and the joined URLs loads the first URL with the rest queued. */
  lemma StartWithUrls(notifierPostUrl: string, urls: seq<string>)
    requires |urls| >= 1 && forall i :: 0 <= i < |urls| ==> Atomic(urls[i])
    ensures Start([notifierPostUrl, Join(urls, ',')]) == Some((urls[0], StateAt(notifierPostUrl, urls, 1)))
  {
    var q := urls + [""];
    FirstQueueOfJoin(urls);
    RestOfQueue(urls);
    assert q[0] == urls[0];
  }

  /** The pages after the first, driven from the state the first load stores. */
  lemma DriveFromSecond(notifierPostUrl: string, urls: seq<string>)
    requires ' ' !in notifierPostUrl
    requires |urls| >= 1 && forall i :: 0 <= i < |urls| ==> Atomic(urls[i])
    ensures |Split(StateAt(notifierPostUrl, urls, 1), ' ')| >= 3
    ensures Drive(StateAt(notifierPostUrl, urls, 1), |urls|) == (urls[1..], true)
  {
    DriveFrom(notifierPostUrl, urls, 1);
  }

  /**
   * End to end: given the post URL and the comma-joined list of URLs
   * free of spaces and commas, the script loads exactly those pages,
   * each once and in order, and then exits; one completion check is
   * needed per page.
   */
  lemma LoadsEachUrlOnceInOrder(notifierPostUrl: string, urls: seq<string>)
    requires ' ' !in notifierPostUrl
    requires |urls| >= 1 && forall i :: 0 <= i < |urls| ==> Atomic(urls[i])
    ensures Run([notifierPostUrl, Join(urls, ',')], |urls|) == (urls, true)
  {
    StartWithUrls(notifierPostUrl, urls);
    DriveFromSecond(notifierPostUrl, urls);
    RunOf([notifierPostUrl, Join(urls, ',')], |urls|, StateAt(notifierPostUrl, urls, 1), urls);
  }

  // ---------------------------------------------------------------------
  // The results posted for one page.
  // ---------------------------------------------------------------------

  /** One failed assertion's text and expectation, as scraped from the page. */
  datatype Detail = Detail(message: string, expected: string)

  /** One QUnit test as scraped from the page; absent fields are JavaScript's null. */
  datatype TestResult = TestResult(moduleName: Option<string>, testName: Option<string>,
                                   failed: Option<int>, passed: Option<int>, details: seq<Detail>)

  /** The JSON body posted for a page. */
  datatype Post = Post(target: string, testUrl: string, passes: int, failures: int, message: string)

  /** A possibly-null string in a JavaScript concatenation. */
  function ShowText(s: Option<string>): string
  {
    if s.Some? then s.value else "null"
  }

  /** A possibly-null number in a JavaScript concatenation. */
  function ShowNumber(n: Option<int>): string
  {
    if n.Some? then IntToString(n.value) else "null"
  }

  /** A possibly-null number added to a running total: null counts as 0. */
  function NumberOrZero(n: Option<int>): int
  {
    if n.Some? then n.value else 0
  }

  /** The sum of `passed` over the results. */
  function SumPassed(results: seq<TestResult>): int
  {
    if |results| == 0 then 0 else SumPassed(results[..|results| - 1]) + NumberOrZero(results[|results| - 1].passed)
  }

  /** The sum of `failed` over the results. */
  function SumFailed(results: seq<TestResult>): int
  {
    if |results| == 0 then 0 else SumFailed(results[..|results| - 1]) + NumberOrZero(results[|results| - 1].failed)
  }

  /** The totals of a concatenation are the sums of the parts' totals. */
  lemma {:induction false} SumsAppend(a: seq<TestResult>, b: seq<TestResult>)
    ensures SumPassed(a + b) == SumPassed(a) + SumPassed(b)
    ensures SumFailed(a + b) == SumFailed(a) + SumFailed(b)
  {
    if |b| == 0 {
      assert a + b == a;
    } else {
      SumsAppend(a, b[..|b| - 1]);
      assert (a + b)[..|a + b| - 1] == a + b[..|b| - 1];
    }
  }

  /** The `[module] ` prefix, present only when the module name is not null. */
  function ModulePrefix(moduleName: Option<string>): (r: string)
    ensures moduleName.None? ==> r == ""
    ensures moduleName.Some? ==> r == "[" + moduleName.value + "] "
  {
    if moduleName.Some? then "[" + moduleName.value + "] " else ""
  }

  /** The first line of a test's entry. */
  function Headline(r: TestResult): string
  {
    ModulePrefix(r.moduleName) + ShowText(r.testName) + ": failed: " + ShowNumber(r.failed) +
      " passed: " + ShowNumber(r.passed)
  }

  /** The line written for one detail. */
  function DetailLine(d: Detail): string
  {
    "  " + d.message + ", expected: " + d.expected
  }

  /** One newline-led line per detail, in order. */
  function DetailLines(details: seq<Detail>): string
  {
    if |details| == 0 then ""
    else DetailLines(details[..|details| - 1]) + "\n" + DetailLine(details[|details| - 1])
  }

  /** A test's entry in the message. */
  function Entry(r: TestResult): string
  {
    Headline(r) + DetailLines(r.details)
  }

  /** The entries of all results, separated by newlines. */
  function Messages(results: seq<TestResult>): string
  {
    Join(Map(Entry, results), '\n')
  }

  /** The headline followed by the detail lines is the headline and the lines joined by newlines. */
  lemma {:induction false} DetailLinesJoin(head: string, details: seq<Detail>)
    ensures head + DetailLines(details) == Join([head] + Map(DetailLine, details), '\n')
  {
    if |details| > 0 {
      var init := details[..|details| - 1];
      var d := details[|details| - 1];
      DetailLinesJoin(head, init);
      DetailLinesJoinStep(head, init, d);
      assert init + [d] == details;
    } else {
      assert head + "" == head;
    }
  }

  lemma DetailLinesJoinStep(head: string, init: seq<Detail>, d: Detail)
    requires head + DetailLines(init) == Join([head] + Map(DetailLine, init), '\n')
    ensures head + DetailLines(init + [d]) == Join([head] + Map(DetailLine, init + [d]), '\n')
  {
    var lines := [head] + Map(DetailLine, init);
    assert (init + [d])[..|init|] == init;
    assert DetailLines(init + [d]) == DetailLines(init) + "\n" + DetailLine(d);
    MapSnoc(DetailLine, init, d);
    assert [head] + Map(DetailLine, init + [d]) == lines + [DetailLine(d)];
    JoinSnoc(lines, DetailLine(d), '\n');
  }

  /**
   * Without newlines in the scraped text, a test's entry is its headline
   * followed by exactly one line per detail.
   */
  lemma EntryLines(r: TestResult)
    requires '\n' !in Headline(r)
    requires forall i :: 0 <= i < |r.details| ==> '\n' !in DetailLine(r.details[i])
    ensures Split(Entry(r), '\n') == [Headline(r)] + Map(DetailLine, r.details)
  {
    DetailLinesJoin(Headline(r), r.details);
    var lines := [Headline(r)] + Map(DetailLine, r.details);
    assert forall i :: 0 <= i < |lines| ==> '\n' !in lines[i] by {
      forall i | 0 <= i < |lines| ensures '\n' !in lines[i] {
        if i > 0 { assert lines[i] == DetailLine(r.details[i - 1]); }
      }
    }
    SplitJoin(lines, '\n');
  }

  /** One more detail in the inner loop of notify. */
  lemma DetailLinesStep(head: string, details: seq<Detail>, i: nat)
    requires i < |details|
    ensures head + DetailLines(details[..i]) + "\n  " + details[i].message + ", expected: " + details[i].expected ==
      head + DetailLines(details[..i + 1])
  {
    assert details[..i + 1][..i] == details[..i];
  }

  /** The inner loop of notify: a test's headline and its detail lines. */
  method BuildEntry(testResult: TestResult) returns (message: string)
    ensures message == Entry(testResult)
  {
    message := ModulePrefix(testResult.moduleName);
    message := message + ShowText(testResult.testName) + ": failed: " + ShowNumber(testResult.failed)
      + " passed: " + ShowNumber(testResult.passed);
    var details := testResult.details;
    var i := 0;
    while i < |details|
      invariant 0 <= i <= |details|
      invariant message == Headline(testResult) + DetailLines(details[..i])
    {
      DetailLinesStep(Headline(testResult), details, i);
      message := message + "\n  " + details[i].message + ", expected: " + details[i].expected;
      i := i + 1;
    }
    assert details[..i] == details;
  }

  /**
   * notify: the totals of passed and failed assertions, and the entries
   * of all tests separated by newlines, posted for the page.
   */
  method Notify(notifierPostUrl: string, testUrl: string, testResults: seq<TestResult>) returns (p: Post)
    ensures p == Post(notifierPostUrl, testUrl, SumPassed(testResults), SumFailed(testResults), Messages(testResults))
  {
    var failures := 0;
    var passes := 0;
    var messages := "";
    var j := 0;
    while j < |testResults|
      invariant 0 <= j <= |testResults|
      invariant passes == SumPassed(testResults[..j]) && failures == SumFailed(testResults[..j])
      invariant messages == Messages(testResults[..j])
    {
      var testResult := testResults[j];
      var message := BuildEntry(testResult);
      NotifyStep(testResults, j, messages, message);
      if j != 0 {
        messages := messages + "\n";
      }
      messages := messages + message;
      passes := passes + NumberOrZero(testResult.passed);
      failures := failures + NumberOrZero(testResult.failed);
      j := j + 1;
    }
    assert testResults[..j] == testResults;
    p := Post(notifierPostUrl, testUrl, passes, failures, messages);
  }

  /** One more entry: a newline, unless it is the first, then the entry. */
  lemma NextMessages(done: seq<TestResult>, r: TestResult, messages: string, message: string)
    requires messages == Messages(done) && message == Entry(r)
    ensures Messages(done + [r]) == (if |done| != 0 then messages + "\n" else messages) + message
  {
    MapSnoc(Entry, done, r);
    if |done| > 0 {
      JoinSnoc(Map(Entry, done), message, '\n');
    }
  }

  /** One more test in notify's loop: both totals grow by its counts and the message by its entry. */
  lemma NotifyStep(results: seq<TestResult>, j: nat, messages: string, message: string)
    requires j < |results| && messages == Messages(results[..j]) && message == Entry(results[j])
    ensures SumPassed(results[..j + 1]) == SumPassed(results[..j]) + NumberOrZero(results[j].passed)
    ensures SumFailed(results[..j + 1]) == SumFailed(results[..j]) + NumberOrZero(results[j].failed)
    ensures Messages(results[..j + 1]) == (if j != 0 then messages + "\n" else messages) + message
  {
    assert results[..j + 1][..j] == results[..j];
    assert results[..j + 1] == results[..j] + [results[j]];
    NextMessages(results[..j], results[j], messages, message);
  }

  // ---------------------------------------------------------------------
  // The browser running the script.
  // ---------------------------------------------------------------------

  /** The parts of PhantomJS the script touches. */
  class Phantom {
    /** phantom.args: the script's arguments. */
    const args: seq<string>
    /** phantom.state, kept across page loads. */
    var state: string
    /** The pages opened, in order. */
    var loaded: seq<string>
    var console: seq<string>
    var posts: seq<Post>
    var exited: bool
    /** Whether the page's script has set up its completion check. */
    var polling: bool

    /** Once set, the state splits into at least three fields. */
    predicate Valid()
      reads this
    {
      state == "" || |Split(state, ' ')| >= 3
    }

    constructor (args: seq<string>)
      ensures this.args == args && state == "" && loaded == [] && console == [] && posts == []
      ensures !exited && !polling && Valid()
    {
      this.args := args;
      state := "";
      loaded := [];
      console := [];
      posts := [];
      exited := false;
      polling := false;
    }

    /** Load the first queued page, keeping it queued if it is the only one, and store the state. */
    method LoadNextTest(notifierPostUrl: string, testUrls: seq<string>) returns (remaining: seq<string>)
      requires |testUrls| >= 1
      modifies this
      ensures remaining == Rest(testUrls)
      ensures state == EncodeState(notifierPostUrl, testUrls[0], remaining) && Valid()
      ensures loaded == old(loaded) + [testUrls[0]] && !polling
      ensures console == old(console) && posts == old(posts) && exited == old(exited)
    {
      var testUrl := testUrls[0];
      remaining := testUrls;
      if |remaining| > 1 {
        remaining := remaining[1..];
      }
      state := notifierPostUrl + " " + testUrl + " " + Join(remaining, ',');
      StateFields(notifierPostUrl, testUrl, remaining);
      loaded := loaded + [testUrl];
      polling := false;
    }

    /** requestFirstTest: check the arguments, then queue the URLs and the sentinel and load the first. */
    method RequestFirstTest()
      requires Valid()
      modifies this
      ensures Valid()
      ensures Start(args).None? ==>
        exited && console == old(console) + [USAGE] && loaded == old(loaded) && state == old(state) &&
        posts == old(posts) && polling == old(polling)
      ensures Start(args).Some? ==>
        loaded == old(loaded) + [Start(args).value.0] && state == Start(args).value.1 &&
        exited == old(exited) && console == old(console) && posts == old(posts) && !polling
    {
      if |args| != 2 {
        console := console + [USAGE];
        exited := true;
      } else {
        var notifierPostUrl := args[0];
        var testUrls := Split(args[1], ',');
        testUrls := testUrls + [""];
        var _ := LoadNextTest(notifierPostUrl, testUrls);
      }
    }

    /** `main`, run each time the script is loaded: the first page starts the queue; every later page sets up its completion check. */
    method OnScriptLoad()
      requires Valid()
      modifies this
      ensures Valid()
      ensures old(state) != "" ==>
        polling && state == old(state) && loaded == old(loaded) && exited == old(exited) &&
        console == old(console) && posts == old(posts)
      ensures old(state) == "" && Start(args).None? ==> exited && console == old(console) + [USAGE] && loaded == old(loaded)
      ensures old(state) == "" && Start(args).Some? ==>
        loaded == old(loaded) + [Start(args).value.0] && state == Start(args).value.1 && !polling
    {
      if |state| == 0 {
        RequestFirstTest();
      } else {
        polling := true;
      }
    }

    /**
     * One run of the completion check. Once QUnit reports completion, the
     * page's results are posted (or a console line written when the
     * results element is missing), and then the next page is loaded, or
     * the script exits if only the sentinel is left. `report` stands for
     * what reportTestResults scrapes from the page.
     */
    method Poll(completed: bool, report: Option<seq<TestResult>>)
      requires Valid() && polling && !exited && state != ""
      modifies this
      ensures Valid()
      ensures !completed ==>
        state == old(state) && loaded == old(loaded) && posts == old(posts) && console == old(console) && !exited
      ensures completed ==>
        var fields := Split(old(state), ' ');
        (report.Some? ==>
          posts == old(posts) + [Post(fields[0], fields[1], SumPassed(report.value), SumFailed(report.value), Messages(report.value))] &&
          console == old(console)) &&
        (report.None? ==> posts == old(posts) && console == old(console) + [NO_RESULTS]) &&
        (Advance(old(state)).None? ==> exited && state == old(state) && loaded == old(loaded)) &&
        (Advance(old(state)).Some? ==>
          !exited && !polling && state == Advance(old(state)).value.1 &&
          loaded == old(loaded) + [Advance(old(state)).value.0])
    {
      if !completed {
        return;
      }
      var fields := Split(state, ' ');
      var notifierPostUrl := fields[0];
      var testUrl := fields[1];
      if report.Some? {
        var p := Notify(notifierPostUrl, testUrl, report.value);
        posts := posts + [p];
      } else {
        console := console + [NO_RESULTS];
      }
      var testUrls := Split(fields[2], ',');
      if |testUrls| == 1 {
        exited := true;
        return;
      }
      var _ := LoadNextTest(notifierPostUrl, testUrls);
    }
  }
}
