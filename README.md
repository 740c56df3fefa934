# js-testrunner core, modelled in Dafny

js-testrunner runs QUnit test pages from JUnit. A JUnit runner reads the
test class's annotations. It scans resource folders for test pages and
starts two servers:
- a Jetty **result server**, which serves the pages and receives their results;
- an **execution server**, which copies a bootstrap script (`run-qunit.js`)
  to disk and launches a headless PhantomJS browser on it.

The browser loads the pages one after another. It keeps its queue in one
persisted state string and posts each page's results back. The runner
reports each page to JUnit as a child test that passed, failed or timed out.

The Dafny modules follow the program's structure:

| module | file | models |
|---|---|---|
| `Outcomes` | outcomes.dfy | results and exceptions; Java `try`/`finally` |
| `Strings` | strings.dfy | JavaScript and Java `split`, `join`, `replace`, `indexOf`, decimal printing and `Integer.valueOf` |
| `Urls` | urls.dfy | the parts of `java.net.URL` used: construction, `toString`, `getPath` |
| `Events` | events.dfy | one log of the calls made on collaborators: process launcher, Jetty server, JUnit notifier |
| `Files` | files.dfy | the file system as a map from path to bytes |
| `ExecutionServer` | execution_server.dfy | `JSTestExecutionServer`: script copy, command-line tokenizer, URL list, placeholder substitution, start, `isRunning`, stop |
| `ResultServer` | result_server.dfy | `JSTestResultServer`: init-once, handler chain, start/stop, the fixed 30-second wait |
| `SuiteService` | suite_service.dfy | `JSTestSuiteRunnerService`: formatted paths, file URLs, scanning, set-up and tear-down order |
| `RunQUnit` | run_qunit.dfy | `run-qunit.js`: URL queue, state string, page-by-page state machine, `notify`'s totals and message |
| `JUnitRunner` | junit_runner.dfy | `JSTestSuiteRunner`: host parsing, defaults, `runChild` classification, the class block |

Objects whose fields the source updates are Dafny classes with `modifies`
frames:
- the execution server's `testRunnerFile` and `process`;
- the result server's `initedWebServer` flag;
- Jetty's connectors and handler;
- PhantomJS's `state`;
- the file system.

The source's loops are methods with loop invariants, each proved equal to a
specification function. Properties of those functions are proved as lemmas.

The environment is given, not computed:
- whether Jetty's start or stop throws;
- which programs the operating system can launch;
- the directory scanner;
- the result handler's answer;
- the platform file separator;
- when the process exits, given as the index of the first page that finds it gone;
- what a page reports.

### An observation about the default command

The default command pattern is `phantomjs '%1$s' %2$s`. It turns into
`[phantomjs, <script path>, <URL list>]`, so the script receives one
argument. `run-qunit.js` requires exactly two: the post URL and the URL list.
With the defaults, the script therefore prints its usage line and exits
without loading any page. `JUnitRunner.DefaultCommandLoadsNoPage` states
this. The intended fix is not evident from the source, for instance which
post URL the runner should pass. So it is recorded here as an observation.

## Model

Paths are relative to the repository root.

| member | source | states |
|---|---|---|
| Outcomes.TryFinally | src/main/java/org/codehaus/jstestrunner/JSTestSuiteRunnerService.java:123-131 | a failing `finally` block's exception replaces the body's; otherwise the body's outcome stands; the whole passes iff both pass |
| Strings.Split | src/main/js/org/codehaus/jstestrunner/run-qunit.js:193 | JavaScript `split` on one character always gives at least one piece, and no piece holds the separator |
| Strings.SplitJoin | src/main/js/org/codehaus/jstestrunner/run-qunit.js:210-223 | splitting the join of separator-free pieces gives back exactly those pieces |
| Strings.JoinSplit | src/main/js/org/codehaus/jstestrunner/run-qunit.js:210-223 | joining the pieces of a split gives back the original string |
| Strings.SplitLength | src/main/js/org/codehaus/jstestrunner/run-qunit.js:223 | a split has one more piece than the string has separators |
| Strings.StripTrailing | src/main/java/org/codehaus/jstestrunner/junit/JSTestSuiteRunner.java:188 | the result is a prefix that does not end in the character, and only that character was removed |
| Strings.DropTrailingEmpty | src/main/java/org/codehaus/jstestrunner/junit/JSTestSuiteRunner.java:188 | Java's removal of trailing empty strings: a prefix whose last piece is non-empty, with only empty pieces dropped |
| Strings.JavaSplitStripped | src/main/java/org/codehaus/jstestrunner/junit/JSTestSuiteRunner.java:188 | Java `split` equals the JavaScript split of the string without trailing separators, minus trailing empty pieces |
| Strings.JavaSplitTwoParts | src/main/java/org/codehaus/jstestrunner/junit/JSTestSuiteRunner.java:188-189 | Java `split` gives exactly two parts iff exactly one separator is left once trailing separators are removed |
| Strings.IndexOf | src/main/java/org/codehaus/jstestrunner/JSTestSuiteRunnerService.java:77-78 | None iff the character is absent; otherwise the index of its first occurrence |
| Strings.LastIndexOf | src/main/java/org/codehaus/jstestrunner/JSTestSuiteRunnerService.java:54 | None iff the character is absent; otherwise the index of its last occurrence |
| Strings.Replace | src/main/java/org/codehaus/jstestrunner/JSTestSuiteRunnerService.java:78 | same length, and every occurrence of the character is replaced, nothing else |
| Strings.NatToString | src/main/java/org/codehaus/jstestrunner/junit/JSTestSuiteRunner.java:344-345 | decimal digits only, with no leading zero |
| Strings.IntToString | src/main/java/org/codehaus/jstestrunner/junit/JSTestSuiteRunner.java:344-345 | non-empty, and starts with a digit iff the number is not negative |
| Strings.ParseInt | src/main/java/org/codehaus/jstestrunner/junit/JSTestSuiteRunner.java:194 | `Integer.valueOf` succeeds iff the text is an optional `+` or `-` followed by at least one digit and its value lies in the 32-bit range, and then yields that value |
| Strings.ParseIntExamples | src/main/java/org/codehaus/jstestrunner/junit/JSTestSuiteRunner.java:194 | `+80` and `0080` read as 80 and `-0` as 0; a lone sign is rejected |
| Strings.ParseIntToString | src/main/java/org/codehaus/jstestrunner/junit/JSTestSuiteRunner.java:194 | `Integer.valueOf` reads back every 32-bit int as printed |
| Strings.DigitsValueNatToString | src/main/java/org/codehaus/jstestrunner/junit/JSTestSuiteRunner.java:194 | the value of a number's decimal digits is that number |
| Urls.MakeUrl | src/main/java/org/codehaus/jstestrunner/JSTestSuiteRunnerService.java:77-79 | `new URL` succeeds iff the port is at least -1; a file without `#` and a host without `:` are kept as given |
| Urls.Authority | src/main/java/org/codehaus/jstestrunner/JSTestSuiteRunnerService.java:77-79 | the authority is the host alone for port -1, and otherwise the host followed by `:` and the port |
| Urls.ToStringShape | src/main/java/org/codehaus/jstestrunner/JSTestExecutionServer.java:188 | the string form starts with `http:`; `//` and the authority follow when the authority is non-empty, and the file and fragment follow directly when it is empty; it ends with the file, or with `#` and the fragment when there is one |
| Urls.Path | src/main/java/org/codehaus/jstestrunner/JSTestSuiteRunnerService.java:54 | the path is a prefix of the file part, and is all of it when there is no `?` |
| Files.FileSystem.CreateEmpty | src/main/java/org/codehaus/jstestrunner/JSTestExecutionServer.java:96-97 | the file exists and is empty; no other file changes |
| Files.FileSystem.Append | src/main/java/org/codehaus/jstestrunner/JSTestExecutionServer.java:112-114 | one byte is added at the end of the file; no other file changes |
| ExecutionServer.Tokenize | src/main/java/org/codehaus/jstestrunner/JSTestExecutionServer.java:142-177 | the character loop yields exactly the pattern's tokens |
| ExecutionServer.ScanAppend | src/main/java/org/codehaus/jstestrunner/JSTestExecutionServer.java:148-174 | scanning a concatenation is scanning one part after the other |
| ExecutionServer.NeverBothQuoted | src/main/java/org/codehaus/jstestrunner/JSTestExecutionServer.java:149-160 | the in-single and in-double flags are never both set |
| ExecutionServer.InsideQuotes | src/main/java/org/codehaus/jstestrunner/JSTestExecutionServer.java:170-173 | inside a quote, every character but the closing quote is appended literally, spaces and the other quote included |
| ExecutionServer.QuotedSegment | src/main/java/org/codehaus/jstestrunner/JSTestExecutionServer.java:149-160 | an opening quote does not flush buffered text (`ab'cd'` gives `abcd`); the closing quote emits the buffer, so `''` gives an empty argument |
| ExecutionServer.UnterminatedQuote | src/main/java/org/codehaus/jstestrunner/JSTestExecutionServer.java:175-177 | with a quote still open at the end, a non-empty buffer is still emitted as the last token |
| ExecutionServer.NonEmpty | src/main/java/org/codehaus/jstestrunner/JSTestExecutionServer.java:163 | only non-empty words are kept |
| ExecutionServer.ScanQuoteFree | src/main/java/org/codehaus/jstestrunner/JSTestExecutionServer.java:161-169 | outside quotes, the finished arguments are the non-empty space-separated words so far, and the buffer holds the current word |
| ExecutionServer.TokensQuoteFree | src/main/java/org/codehaus/jstestrunner/JSTestExecutionServer.java:161-169 | without quotes, the tokens are the non-empty words between spaces: runs of spaces never give empty tokens |
| ExecutionServer.ScanKeepsArgs | src/main/java/org/codehaus/jstestrunner/JSTestExecutionServer.java:142-177 | finished arguments are never changed by later characters |
| ExecutionServer.FinishFromRest | src/main/java/org/codehaus/jstestrunner/JSTestExecutionServer.java:142-177 | from a point between arguments, the rest of the pattern adds exactly its own tokens |
| ExecutionServer.ScanWord | src/main/java/org/codehaus/jstestrunner/JSTestExecutionServer.java:167-169 | outside quotes, a word extends the buffer |
| ExecutionServer.WordThenSpace | src/main/java/org/codehaus/jstestrunner/JSTestExecutionServer.java:162-166 | a word followed by a space becomes one argument |
| ExecutionServer.QuotedThenSpace | src/main/java/org/codehaus/jstestrunner/JSTestExecutionServer.java:149-166 | a quoted segment followed by a space becomes its quoted text as one argument |
| ExecutionServer.TokensOfWord | src/main/java/org/codehaus/jstestrunner/JSTestExecutionServer.java:175-177 | a single word is one token |
| ExecutionServer.TokensOfThreeWords | src/main/java/org/codehaus/jstestrunner/JSTestExecutionServer.java:142-177 | `exe 'path' urls` splits into those three tokens |
| ExecutionServer.DefaultPatternTokens | src/main/java/org/codehaus/jstestrunner/JSTestExecutionServer.java:142-177 | the default pattern splits into `phantomjs`, `%1$s` and `%2$s` |
| ExecutionServer.UrlStrings | src/main/java/org/codehaus/jstestrunner/JSTestExecutionServer.java:188 | one string per URL, in order, each its `toString` |
| ExecutionServer.CsvIsJoin | src/main/java/org/codehaus/jstestrunner/JSTestExecutionServer.java:183-190 | for non-empty strings, the CSV loop is the comma join, with no leading or trailing comma |
| ExecutionServer.JoinUrls | src/main/java/org/codehaus/jstestrunner/JSTestExecutionServer.java:183-190 | the URL loop yields the URL strings joined by commas; an empty list gives the empty string |
| ExecutionServer.CsvSplitsBack | src/main/java/org/codehaus/jstestrunner/JSTestExecutionServer.java:183-190 | the script's comma split of the list gives back the URL strings, when none contains a comma |
| ExecutionServer.FormatRender | src/main/java/org/codehaus/jstestrunner/JSTestExecutionServer.java:196-197 | a token of literals and the two placeholders formats to its text, with `%1$s` replaced by the script path and `%2$s` by the URL list |
| ExecutionServer.FormatReads | src/main/java/org/codehaus/jstestrunner/JSTestExecutionServer.java:196-197 | every token that formats is such a reading and formats to its rendering |
| ExecutionServer.Reading | src/main/java/org/codehaus/jstestrunner/JSTestExecutionServer.java:196-197 | the reading found for an accepted token is plain and spells the token |
| ExecutionServer.FormatLiteral | src/main/java/org/codehaus/jstestrunner/JSTestExecutionServer.java:196-197 | a token without `%` passes through unchanged |
| ExecutionServer.FormatEach | src/main/java/org/codehaus/jstestrunner/JSTestExecutionServer.java:193-198 | Ok iff every token formats, and then one formatted entry per token in order; otherwise the error names the first token that does not format |
| ExecutionServer.FormatAll | src/main/java/org/codehaus/jstestrunner/JSTestExecutionServer.java:193-198 | the array loop computes FormatEach |
| ExecutionServer.FirstFailure | src/main/java/org/codehaus/jstestrunner/JSTestExecutionServer.java:193-198 | the first token that does not format is the one reported |
| ExecutionServer.AllFormat | src/main/java/org/codehaus/jstestrunner/JSTestExecutionServer.java:193-198 | when every token formats, the result is exactly the formatted tokens |
| ExecutionServer.DefaultCommandArgs | src/main/java/org/codehaus/jstestrunner/JSTestExecutionServer.java:135-206 | the default pattern gives `[phantomjs, script path, URL list]` |
| ExecutionServer.CopiedIfAbsent | src/main/java/org/codehaus/jstestrunner/JSTestExecutionServer.java:93-121 | afterwards the file exists; an existing file keeps its contents; a missing one gets exactly the bundled bytes; no other file changes |
| ExecutionServer.CopiedIfAbsentIdempotent | src/main/java/org/codehaus/jstestrunner/JSTestExecutionServer.java:93-121 | copying a second time changes nothing |
| ExecutionServer.JSTestExecutionServer.constructor | src/main/java/org/codehaus/jstestrunner/JSTestExecutionServer.java:239-251 | the runner path, pattern and URLs are stored; there is no script file and no process yet |
| ExecutionServer.JSTestExecutionServer.CopyTestRunnerFileIfNotExists | src/main/java/org/codehaus/jstestrunner/JSTestExecutionServer.java:85-125 | the byte loop leaves the file system as CopiedIfAbsent says, and records the script file |
| ExecutionServer.JSTestExecutionServer.GetCommandArgs | src/main/java/org/codehaus/jstestrunner/JSTestExecutionServer.java:135-206 | tokenize, join and format give CommandArgs, with the script's absolute path |
| ExecutionServer.JSTestExecutionServer.Start | src/main/java/org/codehaus/jstestrunner/JSTestExecutionServer.java:259-289 | the script is copied first; a format error, an empty command or an unlaunchable program fails with no process started; otherwise one spawn is logged and a running process recorded |
| ExecutionServer.JSTestExecutionServer.IsRunning | src/main/java/org/codehaus/jstestrunner/JSTestExecutionServer.java:225-236 | true iff a process exists and has not exited |
| ExecutionServer.JSTestExecutionServer.ProcessExits | src/main/java/org/codehaus/jstestrunner/JSTestExecutionServer.java:228-229 | the process ends, as `exitValue` then observes |
| ExecutionServer.JSTestExecutionServer.Stop | src/main/java/org/codehaus/jstestrunner/JSTestExecutionServer.java:294-298 | the process is destroyed, and the destroy logged, only if one exists; otherwise nothing changes |
| ResultServer.HandlerChain | src/main/java/org/codehaus/jstestrunner/jetty/JSTestResultServer.java:93-100 | `resourceBases.length + 1` handlers: the resource handlers in order, and the result handler last |
| ResultServer.HandlerChainOneReceiver | src/main/java/org/codehaus/jstestrunner/jetty/JSTestResultServer.java:100 | the last handler is the only result handler |
| ResultServer.WebServer.AddConnector | src/main/java/org/codehaus/jstestrunner/jetty/JSTestResultServer.java:89-91 | one connector on the port is added; the handler is unchanged |
| ResultServer.WebServer.SetHandler | src/main/java/org/codehaus/jstestrunner/jetty/JSTestResultServer.java:109 | the handler is set; the connectors are unchanged |
| ResultServer.WebServer.Start | src/main/java/org/codehaus/jstestrunner/jetty/JSTestResultServer.java:123 | one start is logged; the outcome is the given start failure or success |
| ResultServer.WebServer.Stop | src/main/java/org/codehaus/jstestrunner/jetty/JSTestResultServer.java:134 | one stop is logged; the outcome is the given stop failure or success |
| ResultServer.JSTestResultHandler.GetJsTestResult | src/main/java/org/codehaus/jstestrunner/jetty/JSTestResultServer.java:80-81 | the answer for the URL, producer availability and timeout |
| ResultServer.JSTestResultServer.constructor | src/main/java/org/codehaus/jstestrunner/jetty/JSTestResultServer.java:54-66 | the settings are stored; the flag starts false and the Jetty server is untouched |
| ResultServer.JSTestResultServer.BuildHandlers | src/main/java/org/codehaus/jstestrunner/jetty/JSTestResultServer.java:93-100 | the array filled with a running index is HandlerChain |
| ResultServer.JSTestResultServer.InitWebServer | src/main/java/org/codehaus/jstestrunner/jetty/JSTestResultServer.java:87-111 | a connector on the configured port is added, and the context handler with the configured path and the chain is installed |
| ResultServer.JSTestResultServer.Start | src/main/java/org/codehaus/jstestrunner/jetty/JSTestResultServer.java:119-124 | configuration happens on the first call only; every call starts Jetty and logs it; the flag is set even when start fails |
| ResultServer.JSTestResultServer.Stop | src/main/java/org/codehaus/jstestrunner/jetty/JSTestResultServer.java:132-136 | before any start nothing happens; afterwards Jetty is stopped and the outcome is its stop's |
| ResultServer.JSTestResultServer.GetJsTestResult | src/main/java/org/codehaus/jstestrunner/jetty/JSTestResultServer.java:78-82 | the URL and producer are forwarded unchanged, with a 30-second timeout |
| SuiteService.StripLeadingSlash | src/main/java/org/codehaus/jstestrunner/JSTestSuiteRunnerService.java:55-61 | exactly one leading `/` is removed when present; otherwise the path is unchanged, and the empty path stays empty |
| SuiteService.UrlPathOf | src/main/java/org/codehaus/jstestrunner/JSTestSuiteRunnerService.java:77-78 | `/` followed by the file, with each platform separator turned into `/` |
| SuiteService.FilesAsUrlsElements | src/main/java/org/codehaus/jstestrunner/JSTestSuiteRunnerService.java:72-84 | one URL per included file, in input order, or none when `new URL` rejects the port |
| SuiteService.FormattedPathOfFile | src/main/java/org/codehaus/jstestrunner/JSTestSuiteRunnerService.java:53-84 | the formatted path of a file's URL is the file with separators turned into `/` |
| SuiteService.RelativeFilepathsAsUrls | src/main/java/org/codehaus/jstestrunner/JSTestSuiteRunnerService.java:72-84 | the loop yields FilesAsUrls; a malformed URL is skipped |
| SuiteService.ScannedUrlsAppend | src/main/java/org/codehaus/jstestrunner/JSTestSuiteRunnerService.java:98-104 | scanning two lists of resource bases concatenates their URLs |
| SuiteService.ScannedUrlsOne | src/main/java/org/codehaus/jstestrunner/JSTestSuiteRunnerService.java:99-102 | one resource base gives the URLs of its included files |
| SuiteService.ScanTestFiles | src/main/java/org/codehaus/jstestrunner/JSTestSuiteRunnerService.java:92-105 | the URLs of each resource base's included files, concatenated in resource-base order |
| SuiteService.JSTestSuiteRunnerService.constructor | src/main/java/org/codehaus/jstestrunner/JSTestSuiteRunnerService.java:111-115 | both servers are stored, and given a consistent result server that logs to the execution server's log, the new service satisfies `Valid` |
| SuiteService.JSTestSuiteRunnerService.BeforeTests | src/main/java/org/codehaus/jstestrunner/JSTestSuiteRunnerService.java:140-146 | the result server starts first; if its start fails, the execution server is never started; otherwise the execution server's outcome and spawn follow, in that order on the log |
| SuiteService.JSTestSuiteRunnerService.AfterTests | src/main/java/org/codehaus/jstestrunner/JSTestSuiteRunnerService.java:123-131 | the process is destroyed, if any, and then the result server's stop always runs; its failure is the one surfaced |
| SuiteService.JSTestSuiteRunnerService.RunTest | src/main/java/org/codehaus/jstestrunner/JSTestSuiteRunnerService.java:163-165 | exactly the result server's answer, with the process's liveness as producer availability; no state changes |
| RunQUnit.Rest | src/main/js/org/codehaus/jstestrunner/run-qunit.js:29-32 | the head is removed only when more than one element remains, so the queue never becomes empty |
| RunQUnit.FirstQueue | src/main/js/org/codehaus/jstestrunner/run-qunit.js:193-194 | the comma split of the argument followed by the `""` sentinel |
| RunQUnit.StateFields | src/main/js/org/codehaus/jstestrunner/run-qunit.js:34 | the state always splits into at least three space-separated fields |
| RunQUnit.NotInJoin | src/main/js/org/codehaus/jstestrunner/run-qunit.js:34 | a character in neither the pieces nor the separator is not in their join |
| RunQUnit.ParseState | src/main/js/org/codehaus/jstestrunner/run-qunit.js:210-223 | for URLs free of spaces and commas, the state parses back to the post URL, the current URL and the remaining queue |
| RunQUnit.Start | src/main/js/org/codehaus/jstestrunner/run-qunit.js:180-198 | a first load always stores a state of at least three fields |
| RunQUnit.Advance | src/main/js/org/codehaus/jstestrunner/run-qunit.js:210-228 | a next load always stores a state of at least three fields |
| RunQUnit.UsageExit | src/main/js/org/codehaus/jstestrunner/run-qunit.js:183-185 | with an argument count other than two, no page is loaded and the script exits |
| RunQUnit.AdvanceAt | src/main/js/org/codehaus/jstestrunner/run-qunit.js:203-228 | after the k-th page completes, the next URL is loaded; after the last, only the sentinel is left and the script exits |
| RunQUnit.DriveFrom | src/main/js/org/codehaus/jstestrunner/run-qunit.js:203-231 | from the k-th page on, the remaining URLs load in order, and then the script exits |
| RunQUnit.RunOf | src/main/js/org/codehaus/jstestrunner/run-qunit.js:236-243 | a run is the first load followed by the loads driven from its state |
| RunQUnit.FirstQueueOfJoin | src/main/js/org/codehaus/jstestrunner/run-qunit.js:193-194 | the first queue of a comma-joined list is that list plus the sentinel |
| RunQUnit.RestOfQueue | src/main/js/org/codehaus/jstestrunner/run-qunit.js:29-32 | popping a queue with its sentinel keeps the sentinel |
| RunQUnit.StartWithUrls | src/main/js/org/codehaus/jstestrunner/run-qunit.js:180-198 | the first load opens the first URL, with the rest and the sentinel queued |
| RunQUnit.DriveFromSecond | src/main/js/org/codehaus/jstestrunner/run-qunit.js:203-231 | every URL after the first loads in order, and then the script exits |
| RunQUnit.LoadsEachUrlOnceInOrder | src/main/js/org/codehaus/jstestrunner/run-qunit.js:26-231 | for URLs free of spaces and commas, the pages loaded are exactly the argument URLs, each once and in order, and then the script exits |
| RunQUnit.SumsAppend | src/main/js/org/codehaus/jstestrunner/run-qunit.js:84-85 | the pass and failure totals of a concatenation add up |
| RunQUnit.ModulePrefix | src/main/js/org/codehaus/jstestrunner/run-qunit.js:67-71 | the `[module] ` prefix appears only when the module name is not null |
| RunQUnit.DetailLinesJoin | src/main/js/org/codehaus/jstestrunner/run-qunit.js:74-77 | a headline followed by the detail lines is the headline and one line per detail, joined by newlines |
| RunQUnit.EntryLines | src/main/js/org/codehaus/jstestrunner/run-qunit.js:66-77 | without newlines in the scraped text, an entry splits into its headline and one `  msg, expected: e` line per detail |
| RunQUnit.BuildEntry | src/main/js/org/codehaus/jstestrunner/run-qunit.js:66-77 | the inner loop builds the test's entry |
| RunQUnit.NextMessages | src/main/js/org/codehaus/jstestrunner/run-qunit.js:79-82 | a newline goes before every entry but the first |
| RunQUnit.Notify | src/main/js/org/codehaus/jstestrunner/run-qunit.js:57-87 | the post carries the sum of `passed`, the sum of `failed`, and the entries joined by newlines, with no leading newline |
| RunQUnit.Phantom.constructor | src/main/js/org/codehaus/jstestrunner/run-qunit.js:238 | the browser starts with an empty state and nothing loaded |
| RunQUnit.Phantom.LoadNextTest | src/main/js/org/codehaus/jstestrunner/run-qunit.js:26-36 | opens the queue's head, pops it unless it is the only element, and stores post, current and queue as the state |
| RunQUnit.Phantom.RequestFirstTest | src/main/js/org/codehaus/jstestrunner/run-qunit.js:180-198 | usage and exit without loading on a wrong argument count; otherwise the first URL is loaded as Start says |
| RunQUnit.Phantom.OnScriptLoad | src/main/js/org/codehaus/jstestrunner/run-qunit.js:236-243 | an empty state starts the queue; otherwise the completion check is set up |
| RunQUnit.Phantom.Poll | src/main/js/org/codehaus/jstestrunner/run-qunit.js:203-231 | once complete, the page's results are posted, or a console line is written when none are found; then the next URL is loaded as Advance says, or the script exits when only the sentinel is left |
| JUnitRunner.ParseHost | src/main/java/org/codehaus/jstestrunner/junit/JSTestSuiteRunner.java:180-196 | no annotation gives the default host and port; a parsed port is a 32-bit int; the only errors are the InitializationError for the form and a NumberFormatError |
| JUnitRunner.ParseHostColon | src/main/java/org/codehaus/jstestrunner/junit/JSTestSuiteRunner.java:188-194 | `host:port` with one colon and a non-empty port yields the host as written and the port's `Integer.valueOf` value, or the NumberFormatError for that port text |
| JUnitRunner.NoColonInNumber | src/main/java/org/codehaus/jstestrunner/junit/JSTestSuiteRunner.java:194 | a printed int has no `:` |
| JUnitRunner.ParseHostRoundTrip | src/main/java/org/codehaus/jstestrunner/junit/JSTestSuiteRunner.java:188-194 | `host:port` for a colon-free host and an int parses back to that host and port |
| JUnitRunner.ParseHostShape | src/main/java/org/codehaus/jstestrunner/junit/JSTestSuiteRunner.java:188-192 | InitializationError iff, once trailing colons are dropped, the value does not have exactly one colon |
| JUnitRunner.ParseHostEmptyPort | src/main/java/org/codehaus/jstestrunner/junit/JSTestSuiteRunner.java:188-192 | `host:` is rejected, because Java's split drops the empty port |
| JUnitRunner.ParseHostTrailingColon | src/main/java/org/codehaus/jstestrunner/junit/JSTestSuiteRunner.java:188-194 | `host:port:` is accepted as `host:port` |
| JUnitRunner.Configure | src/main/java/org/codehaus/jstestrunner/junit/JSTestSuiteRunner.java:180-253 | only a malformed host fails, with the host parse's error; otherwise host and port are the parsed ones |
| JUnitRunner.DefaultConfiguration | src/main/java/org/codehaus/jstestrunner/junit/JSTestSuiteRunner.java:183-253 | the defaults are `localhost`, 9080, `/`, `target/classes` and `target/test-classes`, `**/*Test.html` and `**/*Test.htm`, no excludes, `phantomjs '%1$s' %2$s` and `target/js-testrunner`, built with the platform separator |
| JUnitRunner.AnnotationsOverride | src/main/java/org/codehaus/jstestrunner/junit/JSTestSuiteRunner.java:198-253 | every annotation present, and the command property when set, is used unchanged |
| JUnitRunner.DefaultCommandLoadsNoPage | src/main/java/org/codehaus/jstestrunner/junit/JSTestSuiteRunner.java:239-243 | the default command gives the script one argument, so it loads no page and exits |
| JUnitRunner.FailureShowsPage | src/main/java/org/codehaus/jstestrunner/junit/JSTestSuiteRunner.java:117-141 | a failure's header is the page's formatted path, the same as its description, and its trace is only the message |
| JUnitRunner.ChildFailure | src/main/java/org/codehaus/jstestrunner/junit/JSTestSuiteRunner.java:340-353 | a failure is reported iff the result is missing or has failures; with no failures there is none, whatever the passes |
| JUnitRunner.ChildFailureMessage | src/main/java/org/codehaus/jstestrunner/junit/JSTestSuiteRunner.java:343-346 | a failing result's message starts `Failures: F`, ends with the result's message, and is never the timeout message |
| JUnitRunner.ChildEventsBracketed | src/main/java/org/codehaus/jstestrunner/junit/JSTestSuiteRunner.java:336-359 | started comes first and finished last, both for the page's description; between them is one failure iff the result is missing or failing, namely "Timed out waiting for test" when it is missing |
| JUnitRunner.ChildrenEventsSnoc | src/main/java/org/codehaus/jstestrunner/junit/JSTestSuiteRunner.java:336-359 | one more page adds exactly that page's events |
| JUnitRunner.SelectedAppend | src/main/java/org/codehaus/jstestrunner/junit/JSTestSuiteRunner.java:336-359 | selecting from a concatenated log concatenates the selections |
| JUnitRunner.ChildNames | src/main/java/org/codehaus/jstestrunner/junit/JSTestSuiteRunner.java:336-359 | one page is started once and finished once, and has a failure only when ChildFailure gives one |
| JUnitRunner.ChildrenEventsExit | src/main/java/org/codehaus/jstestrunner/JSTestSuiteRunnerService.java:163-165 | when the process is gone from page `k` on, the log is the first `k` pages run against a live producer followed by the rest run against none |
| JUnitRunner.ChildrenNames | src/main/java/org/codehaus/jstestrunner/junit/JSTestSuiteRunner.java:336-359 | over all pages, each page is started once and finished once, in order, and failures are reported for exactly the failing or timed-out pages |
| JUnitRunner.ClassEventsShape | src/main/java/org/codehaus/jstestrunner/junit/JSTestSuiteRunner.java:278-317 | a class block's log begins with the result server's start and always ends with its stop; the pages run, each once and in order, exactly when set-up succeeded |
| JUnitRunner.ClassSelected | src/main/java/org/codehaus/jstestrunner/junit/JSTestSuiteRunner.java:278-317 | the server and process events of a class block carry no test names |
| JUnitRunner.JSTestSuiteRunner.constructor | src/main/java/org/codehaus/jstestrunner/junit/JSTestSuiteRunner.java:258-268 | the service, the pages and the notifier are stored, and given a valid service whose events go to the notifier, the new runner satisfies `Valid` |
| JUnitRunner.JSTestSuiteRunner.RunChild | src/main/java/org/codehaus/jstestrunner/junit/JSTestSuiteRunner.java:336-359 | one page's events, as ChildEvents says, for the service's answer |
| JUnitRunner.JSTestSuiteRunner.RunPage | src/main/java/org/codehaus/jstestrunner/JSTestSuiteRunnerService.java:163-165 | when the process exits just before page `exitsAt`, page `i` is run against a producer that is available iff `i` is below the pages' running bound, and the process is marked exited from that page on |
| JUnitRunner.JSTestSuiteRunner.RunChildren | src/main/java/org/codehaus/jstestrunner/junit/JSTestSuiteRunner.java:327-329 | every page in order, as ChildrenEvents says, with the producer's availability asked afresh for each page: if the process was running, the pages before `exitsAt` find it available and the rest do not; the process is marked exited iff `exitsAt` falls among the pages |
| JUnitRunner.JSTestSuiteRunner.BeforeTests | src/main/java/org/codehaus/jstestrunner/junit/JSTestSuiteRunner.java:299-309 | the service's set-up: the outcome of starting both servers, and on success a running process |
| JUnitRunner.JSTestSuiteRunner.AfterTests | src/main/java/org/codehaus/jstestrunner/junit/JSTestSuiteRunner.java:278-290 | the service's tear-down: the process is destroyed if one exists, and the result server is stopped |
| JUnitRunner.JSTestSuiteRunner.ClassBlock | src/main/java/org/codehaus/jstestrunner/junit/JSTestSuiteRunner.java:312-317 | set-up, then the pages only if set-up succeeded, then tear-down in `finally`; the outcome is tear-down's failure, or else set-up's; the log is ClassEvents, with the pages before `exitsAt` finding the freshly launched process available |
| JUnitRunner.NewRunner | src/main/java/org/codehaus/jstestrunner/junit/JSTestSuiteRunner.java:171-269 | fails iff the host is malformed, before anything is built; otherwise both servers and the service are built from the configuration over the scanned pages |

## Left out

- Process I/O: the FINE-level reading of the process's error stream and the `waitFor` in `start` are left out. `Runtime.exec` is modelled as recording the command, failing for an empty command or a program not in the given set of launchable programs.
- `copyTestRunnerFileIfNotExists`: the lock is left out, because it only serialises threads. I/O errors and `mkdirs` are also left out; the copy is a sequential check-then-write on a map.
- `String.format`: only `%1$s` and `%2$s` are modelled. Any other `%` directive, including `%%` and `%n`, is treated as a format error.
- `File(parent, child)` and `getAbsolutePath`: modelled as joining with `/` and resolving against a given working directory. Path normalisation is left out.
- The directory scanner's glob matching is not modelled: it is a given function from a resource base and the patterns to the included files.
- The platform separator is a parameter, not read from the system.
- `JSTestResultHandler` is not part of this model: its pending-result map, timeout and polling are cross-thread and time-based. A given answer function stands for it.
- `SuiteService.JSTestSuiteRunnerService.RunTest`: the producer's availability is sampled once, when the result is requested, and not polled during the wait.
- `run-qunit.js` DOM scraping in `reportTestResults`, `parseInt`, the XHR transport and `setInterval` timing are left out:
  - what a page reports is an input;
  - a posted result is always recorded;
  - each completion check is one call.
- `Strings.ParseInt`: only the ASCII digits `0`-`9` are digits. Java's `Integer.valueOf` also accepts other Unicode decimal digits (through `Character.digit`), for instance the full-width `８０`; the model rejects those.
- `RunQUnit.LoadsEachUrlOnceInOrder`: `phantom.exit()` is taken to end the script, as PhantomJS does. `Run` and `Drive` take a fuel bound counting completion checks, so a browser that never completes a page is not modelled.
- `RunQUnit.LoadsEachUrlOnceInOrder`: the script never clears its `setInterval` (`run-qunit.js:204`). The model assumes that no completion check fires between `phantom.open` and the next load of the script, while the old page still shows `completed`. Such a stale check would post that page's results again and drop one more URL from the state; the model does not capture it.
- `RunQUnit.Phantom.LoadNextTest`: it sets `polling` to false to stand for the old page's interval ending when the next page replaces it, under the assumption above. The real interval is never cleared.
- `RunQUnit.Notify`: `passed` and `failed` are integers or null. A null adds as 0 and prints as `null`. NaN from a failed `parseInt` is not modelled.
- JUnit internals are left out: `Description`, `RunNotifier` and `ParentRunner` appear only as the events recorded.
- `JUnitRunner.JSTestSuiteRunner.RunChildren`: the process exits between two pages. An exit while the service waits for a page's result counts from the next page on; the model holds no clock.
- `JUnitRunner.JSTestSuiteRunner.RunChildren`: a child cannot throw in this model, so JUnit's handling of a throwing child is left out.
- Every Jetty logger level setting is left out.
- `ProcessLogger`, `StreamGobbler` and `StreamDiscarder` are left out: they are thread-based stream drainers. `ProcessLoggerTest` is left out with them, because it calls a `ProcessLogger` constructor that is not in the source.
- `JSTestSuiteRunnerConfig` is not part of this model. It is a bean configuration that calls constructors absent from the source.
- `JSTestSuiteRunner.java:264` calls a three-argument `JSTestExecutionServer` constructor that is absent from the source. The model's constructor takes those values and sets the fields that `JSTestExecutionServer.java:239-251` sets.
- `TestResultProducer.isAvailable` is modelled as the execution server's `isRunning`, the only liveness query the execution server has.
