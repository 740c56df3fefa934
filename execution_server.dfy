/**
 * The execution server: it copies the bootstrap script to disk once,
 * builds the command line of the headless browser from a pattern, starts
 * that process, reports whether it is still running and destroys it.
 */
module ExecutionServer {
  import opened Outcomes
  import opened Strings
  import Urls
  import opened Events
  import opened Files

  // ---------------------------------------------------------------------
  // Splitting the command pattern into arguments.
  // ---------------------------------------------------------------------

  /** The variables of the scan: finished arguments, the argument being built, and the two quote flags. */
  datatype Lexer = Lexer(args: seq<string>, buffer: string, inDoubleQuotes: bool, inSingleQuotes: bool)

  const START: Lexer := Lexer([], "", false, false)

  predicate Unquoted(st: Lexer)
  {
    !st.inDoubleQuotes && !st.inSingleQuotes
  }

  /** Between arguments: outside quotes with nothing buffered. */
  predicate AtRest(st: Lexer)
  {
    Unquoted(st) && st.buffer == ""
  }

  predicate IsQuote(c: char)
  {
    c == '"' || c == '\''
  }

  predicate QuoteFree(s: string)
  {
    forall i :: 0 <= i < |s| ==> !IsQuote(s[i])
  }

  /** What one character of the pattern does to the scan. */
  function Step(st: Lexer, c: char): Lexer
  {
    if c == '"' && !st.inSingleQuotes then
      if st.inDoubleQuotes then Lexer(st.args + [st.buffer], "", false, st.inSingleQuotes)
      else st.(inDoubleQuotes := true)
    else if c == '\'' && !st.inDoubleQuotes then
      if st.inSingleQuotes then Lexer(st.args + [st.buffer], "", st.inDoubleQuotes, false)
      else st.(inSingleQuotes := true)
    else if Unquoted(st) && c == ' ' then
      if |st.buffer| > 0 then Lexer(st.args + [st.buffer], "", false, false) else st
    else
      st.(buffer := st.buffer + [c])
  }

  /** The scan after reading all of `s`, starting from `st`. */
  function Scan(st: Lexer, s: string): Lexer
  {
    if |s| == 0 then st else Step(Scan(st, s[..|s| - 1]), s[|s| - 1])
  }

  /** After the last character: a non-empty buffer is one more argument, even inside an open quote. */
  function Finish(st: Lexer): seq<string>
  {
    if |st.buffer| > 0 then st.args + [st.buffer] else st.args
  }

  /** The arguments the pattern splits into. */
  function Tokens(pattern: string): seq<string>
  {
    Finish(Scan(START, pattern))
  }

  /** The first loop of getCommandArgs: the pattern's arguments in order. */
  method Tokenize(pattern: string) returns (args: seq<string>)
    ensures args == Tokens(pattern)
  {
    args := [];
    var sb := "";
    var inDoubleQuotes := false;
    var inSingleQuotes := false;
    var i := 0;
    while i < |pattern|
      invariant 0 <= i <= |pattern|
      invariant Lexer(args, sb, inDoubleQuotes, inSingleQuotes) == Scan(START, pattern[..i])
    {
      var c := pattern[i];
      assert pattern[..i + 1][..i] == pattern[..i];
      if c == '"' && !inSingleQuotes {
        if inDoubleQuotes {
          args := args + [sb];
          sb := "";
        }
        inDoubleQuotes := !inDoubleQuotes;
      } else if c == '\'' && !inDoubleQuotes {
        if inSingleQuotes {
          args := args + [sb];
          sb := "";
        }
        inSingleQuotes := !inSingleQuotes;
      } else if !inDoubleQuotes && !inSingleQuotes {
        if c == ' ' {
          if |sb| > 0 {
            args := args + [sb];
            sb := "";
          }
        } else {
          sb := sb + [c];
        }
      } else {
        sb := sb + [c];
      }
      i := i + 1;
    }
    assert pattern[..i] == pattern;
    if |sb| > 0 {
      args := args + [sb];
    }
  }

  /** Scanning a concatenation is scanning one part after the other. */
  lemma {:induction false} ScanAppend(st: Lexer, a: string, b: string)
    ensures Scan(st, a + b) == Scan(Scan(st, a), b)
  {
    if |b| == 0 {
      assert a + b == a;
    } else {
      ScanAppend(st, a, b[..|b| - 1]);
      assert (a + b)[..|a + b| - 1] == a + b[..|b| - 1];
    }
  }

  /** The two quote flags are never set together. */
  lemma {:induction false} NeverBothQuoted(st: Lexer, s: string)
    requires !(st.inDoubleQuotes && st.inSingleQuotes)
    ensures var r := Scan(st, s); !(r.inDoubleQuotes && r.inSingleQuotes)
  {
    if |s| > 0 {
      NeverBothQuoted(st, s[..|s| - 1]);
    }
  }

  predicate InQuote(st: Lexer, q: char)
  {
    if q == '"' then st.inDoubleQuotes && !st.inSingleQuotes
    else st.inSingleQuotes && !st.inDoubleQuotes
  }

  /** Inside a quote, every character but the closing quote is taken literally, spaces and the other quote included. */
  lemma {:induction false} InsideQuotes(st: Lexer, q: char, body: string)
    requires IsQuote(q) && InQuote(st, q) && q !in body
    ensures Scan(st, body) == st.(buffer := st.buffer + body)
  {
    if |body| > 0 {
      var init := body[..|body| - 1];
      assert q !in init by {
        forall i | 0 <= i < |init| ensures init[i] != q { assert init[i] == body[i]; }
      }
      InsideQuotes(st, q, init);
      assert body == init + [body[|body| - 1]];
    }
  }

  /**
   * A quoted segment read outside quotes ends one argument at its closing
   * quote: the text buffered before the opening quote, then the segment's
   * body taken literally. So `''` gives an empty argument and `ab'cd'`
   * gives `abcd`.
   */
  lemma QuotedSegment(st: Lexer, q: char, body: string)
    requires IsQuote(q) && Unquoted(st) && q !in body
    ensures Scan(st, [q] + body + [q]) == Lexer(st.args + [st.buffer + body], "", false, false)
  {
    var afterOpen := Step(st, q);
    assert Scan(st, [q]) == afterOpen by {
      assert [q][..0] == [];
    }
    InsideQuotes(afterOpen, q, body);
    ScanAppend(st, [q], body);
    ScanAppend(st, [q] + body, [q]);
    assert Scan(Scan(st, [q] + body), [q]) == Step(Scan(st, [q] + body), q) by {
      assert [q][..0] == [];
    }
  }

  /** An argument whose closing quote is missing is still emitted at the end, if it is not empty. */
  lemma UnterminatedQuote(st: Lexer, q: char, body: string)
    requires IsQuote(q) && Unquoted(st) && q !in body
    ensures Finish(Scan(st, [q] + body)) ==
      if |st.buffer + body| > 0 then st.args + [st.buffer + body] else st.args
  {
    var afterOpen := Step(st, q);
    assert Scan(st, [q]) == afterOpen by {
      assert [q][..0] == [];
    }
    InsideQuotes(afterOpen, q, body);
    ScanAppend(st, [q], body);
  }

  /** The non-empty strings of `xs`, in order. */
  function NonEmpty(xs: seq<string>): (r: seq<string>)
    ensures forall i :: 0 <= i < |r| ==> r[i] != ""
  {
    if |xs| == 0 then []
    else NonEmpty(xs[..|xs| - 1]) + (if xs[|xs| - 1] == "" then [] else [xs[|xs| - 1]])
  }

  /** Outside quotes, a space turns the buffered word into an argument; an empty one is dropped. */
  lemma StepSpace(done: seq<string>, last: string)
    ensures Step(Lexer(NonEmpty(done), last, false, false), ' ') == Lexer(NonEmpty(done + [last]), "", false, false)
  {
    assert (done + [last])[..|done|] == done;
  }

  /** Outside quotes, any other unquoted character extends the buffered word. */
  lemma StepWordChar(done: seq<string>, last: string, c: char)
    requires !IsQuote(c) && c != ' '
    ensures Step(Lexer(NonEmpty(done), last, false, false), c) == Lexer(NonEmpty(done), last + [c], false, false)
  {
  }

  /** The scan of quote-free text: the words before the last space, and the last word buffered. */
  predicate ScannedWords(s: string)
  {
    var p := Split(s, ' ');
    Scan(START, s) == Lexer(NonEmpty(p[..|p| - 1]), p[|p| - 1], false, false)
  }

  lemma ScannedWordsSpace(init: string)
    requires ScannedWords(init)
    ensures ScannedWords(init + [' '])
  {
    var p := Split(init, ' ');
    var done, last := p[..|p| - 1], p[|p| - 1];
    assert (init + [' '])[..|init|] == init;
    SplitSnocSeparator(init, ' ');
    StepSpace(done, last);
    var p' := p + [""];
    assert p'[..|p'| - 1] == done + [last];
  }

  lemma ScannedWordsOther(init: string, c: char)
    requires ScannedWords(init) && !IsQuote(c) && c != ' '
    ensures ScannedWords(init + [c])
  {
    var p := Split(init, ' ');
    var done, last := p[..|p| - 1], p[|p| - 1];
    assert (init + [c])[..|init|] == init;
    SplitSnocOther(init, c, ' ');
    StepWordChar(done, last, c);
    var p' := p[|p| - 1 := last + [c]];
    assert p'[..|p'| - 1] == done;
  }

  /** Outside quotes the scan holds the complete space-separated words and buffers the word being read. */
  lemma {:induction false} ScanQuoteFree(s: string)
    requires QuoteFree(s)
    ensures var p := Split(s, ' ');
      Scan(START, s) == Lexer(NonEmpty(p[..|p| - 1]), p[|p| - 1], false, false)
  {
    if |s| > 0 {
      var init := s[..|s| - 1];
      var c := s[|s| - 1];
      assert QuoteFree(init) by {
        forall i | 0 <= i < |init| ensures !IsQuote(init[i]) { assert init[i] == s[i]; }
      }
      ScanQuoteFree(init);
      assert s == init + [c];
      if c == ' ' {
        ScannedWordsSpace(init);
      } else {
        ScannedWordsOther(init, c);
      }
    }
  }

  /**
   * Without quotes, a space is the only separator and runs of spaces give
   * no empty arguments: the arguments are the non-empty space-separated words.
   */
  lemma TokensQuoteFree(s: string)
    requires QuoteFree(s)
    ensures Tokens(s) == NonEmpty(Split(s, ' '))
  {
    ScanQuoteFree(s);
    var p := Split(s, ' ');
    assert p == p[..|p| - 1] + [p[|p| - 1]];
  }

  /** A scan that starts after some finished arguments keeps them in front. */
  lemma {:induction false} ScanKeepsArgs(st: Lexer, s: string)
    ensures Scan(st, s) == Scan(st.(args := []), s).(args := st.args + Scan(st.(args := []), s).args)
  {
    if |s| > 0 {
      ScanKeepsArgs(st, s[..|s| - 1]);
    }
  }

  /** From a state between arguments, the rest of the pattern contributes exactly its own arguments. */
  lemma FinishFromRest(st: Lexer, s: string)
    requires AtRest(st)
    ensures Finish(Scan(st, s)) == st.args + Tokens(s)
  {
    ScanKeepsArgs(st, s);
    assert st.(args := []) == START;
  }

  /** Outside quotes, characters other than quotes and spaces extend the buffered argument. */
  lemma {:induction false} ScanWord(st: Lexer, w: string)
    requires Unquoted(st) && QuoteFree(w) && ' ' !in w
    ensures Scan(st, w) == st.(buffer := st.buffer + w)
  {
    if |w| > 0 {
      var init := w[..|w| - 1];
      assert QuoteFree(init) && ' ' !in init by {
        forall i | 0 <= i < |init| ensures init[i] == w[i] { }
      }
      ScanWord(st, init);
      assert w == init + [w[|w| - 1]];
    }
  }

  lemma ScanOne(st: Lexer, c: char)
    ensures Scan(st, [c]) == Step(st, c)
  {
    assert [c][..0] == [];
  }

  /** Reading one more character is one more step. */
  lemma ScanSnoc(st: Lexer, s: string, c: char)
    ensures Scan(st, s + [c]) == Step(Scan(st, s), c)
  {
    assert (s + [c])[..|s|] == s;
  }

  /** A word and a space, read between arguments, finish that word. */
  lemma WordThenSpace(st: Lexer, w: string)
    requires AtRest(st) && |w| > 0 && QuoteFree(w) && ' ' !in w
    ensures Scan(st, w + " ") == Lexer(st.args + [w], "", false, false)
  {
    ScanWord(st, w);
    assert st.buffer + w == w;
    ScanSnoc(st, w, ' ');
  }

  /** A quoted segment and a space, read between arguments, finish the quoted text. */
  lemma QuotedThenSpace(st: Lexer, q: char, body: string)
    requires IsQuote(q) && AtRest(st) && q !in body
    ensures Scan(st, [q] + body + [q] + " ") == Lexer(st.args + [body], "", false, false)
  {
    QuotedSegment(st, q, body);
    assert st.buffer + body == body;
    ScanSnoc(st, [q] + body + [q], ' ');
  }

  /** A word alone is one argument. */
  lemma TokensOfWord(w: string)
    requires |w| > 0 && QuoteFree(w) && ' ' !in w
    ensures Tokens(w) == [w]
  {
    ScanWord(START, w);
    assert START.buffer + w == w;
  }

  /** A pattern of the form `exe 'path' urls` splits into those three words. */
  lemma TokensOfThreeWords(exe: string, path: string, urls: string)
    requires |exe| > 0 && QuoteFree(exe) && ' ' !in exe
    requires '\'' !in path
    requires |urls| > 0 && QuoteFree(urls) && ' ' !in urls
    ensures Tokens(exe + " " + ("'" + path + "'") + " " + urls) == [exe, path, urls]
  {
    var a := exe + " ";
    var b := ['\''] + path + ['\''] + " ";
    assert exe + " " + ("'" + path + "'") + " " + urls == (a + b) + urls;
    WordThenSpace(START, exe);
    var s1 := Lexer([exe], "", false, false);
    QuotedThenSpace(s1, '\'', path);
    ScanAppend(START, a, b);
    var s2 := Lexer([exe, path], "", false, false);
    assert Scan(START, a) == s1;
    assert [exe] + [path] == [exe, path];
    assert Scan(s1, b) == s2;
    assert Scan(START, a + b) == s2;
    ScanAppend(START, a + b, urls);
    FinishFromRest(s2, urls);
    TokensOfWord(urls);
  }

  /** The default pattern splits into the executable and the two placeholders. */
  lemma DefaultPatternTokens()
    ensures Tokens("phantomjs '%1$s' %2$s") == ["phantomjs", "%1$s", "%2$s"]
  {
    var exe, path, urls := "phantomjs", "%1$s", "%2$s";
    assert QuoteFree(exe) && ' ' !in exe && QuoteFree(urls) && ' ' !in urls;
    TokensOfThreeWords(exe, path, urls);
    assert exe + " " + ("'" + path + "'") + " " + urls == "phantomjs '%1$s' %2$s";
  }

  // ---------------------------------------------------------------------
  // The list of test URLs as one comma-separated argument.
  // ---------------------------------------------------------------------

  /** The string form of each URL, in order. */
  function UrlStrings(urls: seq<Urls.Url>): (r: seq<string>)
    ensures |r| == |urls|
    ensures forall i :: 0 <= i < |r| ==> r[i] == Urls.ToString(urls[i])
  {
    if |urls| == 0 then [] else UrlStrings(urls[..|urls| - 1]) + [Urls.ToString(urls[|urls| - 1])]
  }

  /**
   * The CSV loop as written: a comma goes in front of each string once
   * something has been written, so an empty string contributes no comma.
   */
  function Csv(strs: seq<string>): string
  {
    if |strs| == 0 then ""
    else
      var acc := Csv(strs[..|strs| - 1]);
      (if |acc| > 0 then acc + "," else acc) + strs[|strs| - 1]
  }

  /** One more string: a comma if something was written, then the string. */
  lemma CsvSnoc(strs: seq<string>, s: string)
    ensures Csv(strs + [s]) == (if |Csv(strs)| > 0 then Csv(strs) + "," else Csv(strs)) + s
  {
    assert (strs + [s])[..|strs|] == strs;
  }

  /** One more URL in the CSV loop. */
  lemma CsvUrlsSnoc(urls: seq<Urls.Url>, i: nat)
    requires i < |urls|
    ensures var c := Csv(UrlStrings(urls[..i]));
      Csv(UrlStrings(urls[..i + 1])) == (if |c| > 0 then c + "," else c) + Urls.ToString(urls[i])
  {
    assert urls[..i + 1][..i] == urls[..i];
    CsvSnoc(UrlStrings(urls[..i]), Urls.ToString(urls[i]));
  }

  /** After the last URL, the CSV loop has produced the comma join. */
  lemma CsvUrlsDone(urls: seq<Urls.Url>)
    ensures Csv(UrlStrings(urls[..|urls|])) == Join(UrlStrings(urls), ',')
  {
    assert urls[..|urls|] == urls;
    CsvIsJoin(UrlStrings(urls));
  }

  /** For non-empty strings, the CSV loop is a plain comma join. */
  lemma {:induction false} CsvIsJoin(strs: seq<string>)
    requires forall i :: 0 <= i < |strs| ==> |strs[i]| > 0
    ensures Csv(strs) == Join(strs, ',')
    ensures |strs| > 0 ==> |Csv(strs)| > 0
  {
    if |strs| > 1 {
      var init := strs[..|strs| - 1];
      CsvIsJoin(init);
      JoinSnoc(init, strs[|strs| - 1], ',');
      assert strs == init + [strs[|strs| - 1]];
    }
  }

  /** The second loop of getCommandArgs: every URL's string form, separated by commas. */
  method JoinUrls(urls: seq<Urls.Url>) returns (csv: string)
    ensures csv == Join(UrlStrings(urls), ',')
  {
    csv := "";
    var i := 0;
    while i < |urls|
      invariant 0 <= i <= |urls|
      invariant csv == Csv(UrlStrings(urls[..i]))
    {
      CsvUrlsSnoc(urls, i);
      if |csv| > 0 {
        csv := csv + ",";
      }
      csv := csv + Urls.ToString(urls[i]);
      i := i + 1;
    }
    CsvUrlsDone(urls);
  }

  /** The URLs come back from the CSV, provided no URL's string form holds a comma. */
  lemma CsvSplitsBack(urls: seq<Urls.Url>)
    requires |urls| >= 1
    requires forall i :: 0 <= i < |urls| ==> ',' !in Urls.ToString(urls[i])
    ensures Split(Join(UrlStrings(urls), ','), ',') == UrlStrings(urls)
  {
    var strs := UrlStrings(urls);
    forall i | 0 <= i < |strs|
      ensures ',' !in strs[i]
    {
      assert strs[i] == Urls.ToString(urls[i]);
    }
    SplitJoin(strs, ',');
  }

  // ---------------------------------------------------------------------
  // Substituting the two placeholders.
  // ---------------------------------------------------------------------

  function Prepend(prefix: string, r: Option<string>): Option<string>
  {
    if r.Some? then Some(prefix + r.value) else None
  }

  /**
   * `String.format(token, scriptPath, testUrls)` for the directives the
   * runner uses: `%1$s` becomes the script path, `%2$s` the URL list, and
   * any other `%` is a format error (None).
   */
  function Format(token: string, scriptPath: string, testUrls: string): Option<string>
  {
    if |token| == 0 then Some("")
    else if token[0] != '%' then Prepend([token[0]], Format(token[1..], scriptPath, testUrls))
    else if |token| >= 4 && token[1..4] == "1$s" then Prepend(scriptPath, Format(token[4..], scriptPath, testUrls))
    else if |token| >= 4 && token[1..4] == "2$s" then Prepend(testUrls, Format(token[4..], scriptPath, testUrls))
    else None
  }

  /** A reading of a token: literal characters and the two placeholders. */
  datatype Piece = Literal(c: char) | ScriptPath | TestUrls

  /** Readings in which a `%` only ever starts a placeholder. */
  predicate Plain(ps: seq<Piece>)
  {
    forall i :: 0 <= i < |ps| ==> ps[i] != Literal('%')
  }

  /** The text of a reading. */
  function Unparse(ps: seq<Piece>): string
  {
    if |ps| == 0 then ""
    else
      (match ps[0]
         case Literal(c) => [c]
         case ScriptPath => "%1$s"
         case TestUrls => "%2$s") + Unparse(ps[1..])
  }

  /** A reading with each placeholder replaced by its value. */
  function Render(ps: seq<Piece>, scriptPath: string, testUrls: string): string
  {
    if |ps| == 0 then ""
    else
      (match ps[0]
         case Literal(c) => [c]
         case ScriptPath => scriptPath
         case TestUrls => testUrls) + Render(ps[1..], scriptPath, testUrls)
  }

  /** Formatting a token made of literals and placeholders substitutes each placeholder. */
  lemma {:induction false} FormatRender(ps: seq<Piece>, scriptPath: string, testUrls: string)
    requires Plain(ps)
    ensures Format(Unparse(ps), scriptPath, testUrls) == Some(Render(ps, scriptPath, testUrls))
  {
    if |ps| > 0 {
      assert Plain(ps[1..]) by {
        forall i | 0 <= i < |ps[1..]| ensures ps[1..][i] != Literal('%') { assert ps[1..][i] == ps[i + 1]; }
      }
      FormatRender(ps[1..], scriptPath, testUrls);
      var t := Unparse(ps);
      var rest := Unparse(ps[1..]);
      match ps[0]
      case Literal(c) =>
        assert t == [c] + rest;
        assert t[1..] == rest;
      case ScriptPath =>
        assert t == "%1$s" + rest;
        assert t[1..4] == "1$s" && t[4..] == rest;
      case TestUrls =>
        assert t == "%2$s" + rest;
        assert t[1..4] == "2$s" && t[4..] == rest;
    }
  }

  /** Every token that formats without error is such a reading, and formats to its rendering. */
  lemma {:induction false} FormatReads(token: string, scriptPath: string, testUrls: string)
    requires Format(token, scriptPath, testUrls).Some?
    ensures exists ps :: (Plain(ps) && Unparse(ps) == token &&
      Format(token, scriptPath, testUrls) == Some(Render(ps, scriptPath, testUrls)))
  {
    var ps := Reading(token, scriptPath, testUrls);
    FormatRender(ps, scriptPath, testUrls);
  }

  /** The reading that Format follows, for a token it accepts. */
  function Reading(token: string, scriptPath: string, testUrls: string): (ps: seq<Piece>)
    requires Format(token, scriptPath, testUrls).Some?
    ensures Plain(ps) && Unparse(ps) == token
  {
    if |token| == 0 then []
    else if token[0] != '%' then
      var ps := [Literal(token[0])] + Reading(token[1..], scriptPath, testUrls);
      assert ps[1..] == Reading(token[1..], scriptPath, testUrls);
      assert token == [token[0]] + token[1..];
      ps
    else if token[1..4] == "1$s" then
      var ps := [ScriptPath] + Reading(token[4..], scriptPath, testUrls);
      assert ps[1..] == Reading(token[4..], scriptPath, testUrls);
      assert token == "%1$s" + token[4..];
      ps
    else
      var ps := [TestUrls] + Reading(token[4..], scriptPath, testUrls);
      assert ps[1..] == Reading(token[4..], scriptPath, testUrls);
      assert token == "%2$s" + token[4..];
      ps
  }

  /** A token without `%` is passed through unchanged. */
  lemma {:induction false} FormatLiteral(token: string, scriptPath: string, testUrls: string)
    requires '%' !in token
    ensures Format(token, scriptPath, testUrls) == Some(token)
  {
    if |token| > 0 {
      assert '%' !in token[1..] by {
        forall i | 0 <= i < |token[1..]| ensures token[1..][i] != '%' { assert token[1..][i] == token[i + 1]; }
      }
      FormatLiteral(token[1..], scriptPath, testUrls);
      assert [token[0]] + token[1..] == token;
    }
  }

  /** `args[k]` is the first argument that does not format. */
  predicate FirstUnformatted(args: seq<string>, scriptPath: string, testUrls: string, k: int)
  {
    0 <= k < |args| && Format(args[k], scriptPath, testUrls).None? &&
    forall j :: 0 <= j < k ==> Format(args[j], scriptPath, testUrls).Some?
  }

  /**
   * Formatting every argument: the formatted arguments in order, or the
   * format error of the first argument that does not format.
   */
  function FormatEach(args: seq<string>, scriptPath: string, testUrls: string): (r: Result<seq<string>>)
    ensures r.Ok? <==> forall i :: 0 <= i < |args| ==> Format(args[i], scriptPath, testUrls).Some?
    ensures r.Ok? ==> (|r.value| == |args| &&
      forall i :: 0 <= i < |args| ==> Format(args[i], scriptPath, testUrls) == Some(r.value[i]))
    ensures r.Err? ==> exists k :: FirstUnformatted(args, scriptPath, testUrls, k) && r.error == FormatError(args[k])
  {
    if |args| == 0 then Ok([])
    else
      var first := Format(args[0], scriptPath, testUrls);
      if first.None? then Err(FormatError(args[0]))
      else
        var rest := FormatEach(args[1..], scriptPath, testUrls);
        if rest.Err? then
          assert forall i :: 1 <= i < |args| ==> args[i] == args[1..][i - 1];
          rest
        else
          assert forall i :: 1 <= i < |args| ==> args[i] == args[1..][i - 1];
          Ok([first.value] + rest.value)
  }

  /** The third loop of getCommandArgs: fill an array of the same length with the formatted arguments. */
  method FormatAll(args: seq<string>, scriptPath: string, testUrls: string) returns (r: Result<seq<string>>)
    ensures r == FormatEach(args, scriptPath, testUrls)
  {
    var formattedArgs := new string[|args|];
    var i := 0;
    while i < |args|
      invariant 0 <= i <= |args|
      invariant forall j :: 0 <= j < i ==> Format(args[j], scriptPath, testUrls) == Some(formattedArgs[j])
    {
      var f := Format(args[i], scriptPath, testUrls);
      if f.None? {
        r := Err(FormatError(args[i]));
        FirstFailure(args, scriptPath, testUrls, i);
        return;
      }
      formattedArgs[i] := f.value;
      i := i + 1;
    }
    r := Ok(formattedArgs[..]);
    AllFormat(args, scriptPath, testUrls, formattedArgs[..]);
  }

  /** FormatEach reports the first argument that does not format. */
  lemma {:induction false} FirstFailure(args: seq<string>, scriptPath: string, testUrls: string, k: nat)
    requires FirstUnformatted(args, scriptPath, testUrls, k)
    ensures FormatEach(args, scriptPath, testUrls) == Err(FormatError(args[k]))
  {
    if k > 0 {
      FirstFailure(args[1..], scriptPath, testUrls, k - 1);
    }
  }

  /** FormatEach gives exactly the formatted arguments when every one formats. */
  lemma {:induction false} AllFormat(args: seq<string>, scriptPath: string, testUrls: string, out: seq<string>)
    requires |out| == |args|
    requires forall j :: 0 <= j < |args| ==> Format(args[j], scriptPath, testUrls) == Some(out[j])
    ensures FormatEach(args, scriptPath, testUrls) == Ok(out)
  {
    if |args| > 0 {
      AllFormat(args[1..], scriptPath, testUrls, out[1..]);
      assert out == [out[0]] + out[1..];
    }
  }

  /** The whole of getCommandArgs: the pattern's arguments, each formatted with the script path and the URL list. */
  function CommandArgs(pattern: string, scriptPath: string, urls: seq<Urls.Url>): Result<seq<string>>
  {
    FormatEach(Tokens(pattern), scriptPath, Join(UrlStrings(urls), ','))
  }

  /** `%1$s` alone formats to the script path. */
  lemma FormatScriptPath(scriptPath: string, csv: string)
    ensures Format("%1$s", scriptPath, csv) == Some(scriptPath)
  {
    assert "%1$s"[1..4] == "1$s" && "%1$s"[4..] == "";
    assert scriptPath + "" == scriptPath;
  }

  /** `%2$s` alone formats to the URL list. */
  lemma FormatUrlList(scriptPath: string, csv: string)
    ensures Format("%2$s", scriptPath, csv) == Some(csv)
  {
    assert "%2$s"[1] == '2' && "1$s"[0] == '1';
    assert "%2$s"[1..4] == "2$s" && "%2$s"[4..] == "";
    assert csv + "" == csv;
  }

  /** The default pattern's three tokens format to the browser, the script path and the URL list. */
  lemma DefaultTokensFormat(scriptPath: string, csv: string)
    ensures FormatEach(["phantomjs", "%1$s", "%2$s"], scriptPath, csv) == Ok(["phantomjs", scriptPath, csv])
  {
    FormatLiteral("phantomjs", scriptPath, csv);
    FormatScriptPath(scriptPath, csv);
    FormatUrlList(scriptPath, csv);
    AllFormat(["phantomjs", "%1$s", "%2$s"], scriptPath, csv, ["phantomjs", scriptPath, csv]);
  }

  /** With the default pattern the command is the browser, the script's path and the URL list. */
  lemma DefaultCommandArgs(scriptPath: string, urls: seq<Urls.Url>)
    ensures CommandArgs("phantomjs '%1$s' %2$s", scriptPath, urls) ==
      Ok(["phantomjs", scriptPath, Join(UrlStrings(urls), ',')])
  {
    DefaultPatternTokens();
    DefaultTokensFormat(scriptPath, Join(UrlStrings(urls), ','));
  }

  // ---------------------------------------------------------------------
  // The server object.
  // ---------------------------------------------------------------------

  const RUNNER_FILENAME: string := "run-qunit.js"

  /**
   * `new File(dir, name)` on a Unix file system: an empty parent stands
   * for the root, and trailing slashes of the parent are dropped.
   */
  function ChildPath(dir: string, name: string): string
  {
    var d := StripTrailing(dir, '/');
    if d == "" then "/" + name else d + "/" + name
  }

  /** `File.getAbsolutePath()`: a relative path is resolved against the working directory. */
  function AbsolutePath(path: string, workingDirectory: string): string
  {
    if |path| > 0 && path[0] == '/' then path else ChildPath(workingDirectory, path)
  }

  /**
   * The file system after copying `contents` to `path` unless it exists:
   * afterwards the file exists; an existing file keeps its contents, a
   * missing one gets exactly `contents`; no other file changes.
   */
  function CopiedIfAbsent(files: map<string, seq<Byte>>, path: string, contents: seq<Byte>): (r: map<string, seq<Byte>>)
    ensures path in r && r.Keys == files.Keys + {path}
    ensures path in files ==> r[path] == files[path]
    ensures path !in files ==> r[path] == contents
    ensures forall f :: f in files && f != path ==> r[f] == files[f]
  {
    if path in files then files else files[path := contents]
  }

  /** Copying twice is copying once. */
  lemma CopiedIfAbsentIdempotent(files: map<string, seq<Byte>>, path: string, contents: seq<Byte>, again: seq<Byte>)
    ensures CopiedIfAbsent(CopiedIfAbsent(files, path, contents), path, again) == CopiedIfAbsent(files, path, contents)
  {
  }

  /** A started browser process; `exited` is set by the environment, `destroyed` by `stop`. */
  datatype Process = Process(command: seq<string>, exited: bool, destroyed: bool)

  class JSTestExecutionServer {
    /** Where the bootstrap script is placed. */
    const testRunnerFilePath: string
    /** The pattern of the command to run. */
    const commandPattern: string
    /** The test pages, in order. */
    const urls: seq<Urls.Url>
    /** The bundled bootstrap script. */
    const bootstrap: seq<Byte>
    /** The directory relative paths are resolved against. */
    const workingDirectory: string
    /** The programs `Runtime.exec` can start. */
    const executables: set<string>
    const fs: FileSystem
    const log: EventLog

    var testRunnerFile: Option<string>
    var process: Option<Process>

    constructor (testRunnerFilePath: string, commandPattern: string, urls: seq<Urls.Url>,
                 bootstrap: seq<Byte>, workingDirectory: string, executables: set<string>,
                 fs: FileSystem, log: EventLog)
      ensures this.testRunnerFilePath == testRunnerFilePath && this.commandPattern == commandPattern
      ensures this.urls == urls && this.bootstrap == bootstrap
      ensures this.workingDirectory == workingDirectory && this.executables == executables
      ensures this.fs == fs && this.log == log
      ensures testRunnerFile == None && process == None
    {
      this.testRunnerFilePath := testRunnerFilePath;
      this.commandPattern := commandPattern;
      this.urls := urls;
      this.bootstrap := bootstrap;
      this.workingDirectory := workingDirectory;
      this.executables := executables;
      this.fs := fs;
      this.log := log;
      testRunnerFile := None;
      process := None;
    }

    /** Where the bootstrap script goes. */
    function RunnerFile(): string
    {
      ChildPath(testRunnerFilePath, RUNNER_FILENAME)
    }

    /** The command this server launches once the script is in place. */
    function Command(): Result<seq<string>>
    {
      CommandArgs(commandPattern, AbsolutePath(RunnerFile(), workingDirectory), urls)
    }

    /** Put the bootstrap script on disk unless it is already there, copying it byte by byte. */
    method CopyTestRunnerFileIfNotExists()
      modifies this, fs
      ensures testRunnerFile == Some(RunnerFile())
      ensures fs.files == CopiedIfAbsent(old(fs.files), RunnerFile(), bootstrap)
      ensures process == old(process)
    {
      var path := RunnerFile();
      testRunnerFile := Some(path);
      if path !in fs.files {
        fs.CreateEmpty(path);
        var i := 0;
        while i < |bootstrap|
          invariant 0 <= i <= |bootstrap|
          invariant fs.files == old(fs.files)[path := bootstrap[..i]]
          invariant testRunnerFile == Some(path) && process == old(process)
        {
          assert bootstrap[..i + 1] == bootstrap[..i] + [bootstrap[i]];
          fs.Append(path, bootstrap[i]);
          i := i + 1;
        }
        assert bootstrap[..i] == bootstrap;
      }
    }

    /** Build the command: tokenize the pattern, join the URLs, format each argument. */
    method GetCommandArgs() returns (r: Result<seq<string>>)
      requires testRunnerFile.Some?
      ensures r == CommandArgs(commandPattern, AbsolutePath(testRunnerFile.value, workingDirectory), urls)
    {
      var args := Tokenize(commandPattern);
      var scriptPath := AbsolutePath(testRunnerFile.value, workingDirectory);
      var testUrls := JoinUrls(urls);
      r := FormatAll(args, scriptPath, testUrls);
    }

    /**
     * What `Runtime.exec` makes of the command: an empty command or a
     * program that cannot be started is an error, as is a format error
     * while building it; otherwise the command is launched.
     */
    function Launch(): Result<seq<string>>
    {
      var cmd := Command();
      if cmd.Err? then cmd
      else if cmd.value == [] then Err(EmptyCommand)
      else if cmd.value[0] !in executables then Err(LaunchFailure(cmd.value))
      else cmd
    }

    /**
     * Copy the script, build the command and launch it. On an error the
     * call ends with that error and no process is started; otherwise the
     * process runs.
     */
    method Start() returns (r: Outcome)
      modifies this, fs, log
      ensures fs.files == CopiedIfAbsent(old(fs.files), RunnerFile(), bootstrap)
      ensures testRunnerFile == Some(RunnerFile())
      ensures Launch().Err? ==> r == Fail(Launch().error) && process == old(process) && log.events == old(log.events)
      ensures Launch().Ok? ==>
        r == Pass && process == Some(Process(Launch().value, false, false)) &&
        log.events == old(log.events) + [Spawn(Launch().value)]
    {
      CopyTestRunnerFileIfNotExists();
      var cmd := GetCommandArgs();
      if cmd.Err? {
        return Fail(cmd.error);
      }
      if |cmd.value| == 0 {
        return Fail(EmptyCommand);
      }
      if cmd.value[0] !in executables {
        return Fail(LaunchFailure(cmd.value));
      }
      log.Record(Spawn(cmd.value));
      process := Some(Process(cmd.value, false, false));
      r := Pass;
    }

    /** `isRunning`: a process exists and has not exited. */
    method IsRunning() returns (running: bool)
      ensures running <==> process.Some? && !process.value.exited
    {
      if process.Some? {
        running := !process.value.exited;
      } else {
        running := false;
      }
    }

    /** The environment: the started process ends. */
    method ProcessExits()
      requires process.Some?
      modifies this
      ensures process == Some(old(process).value.(exited := true))
      ensures testRunnerFile == old(testRunnerFile)
    {
      process := Some(process.value.(exited := true));
    }

    /** Destroy the process, if one was started; otherwise do nothing. */
    method Stop()
      modifies this, log
      ensures old(process).None? ==> process == None && log.events == old(log.events)
      ensures old(process).Some? ==>
        process == Some(old(process).value.(destroyed := true)) && log.events == old(log.events) + [Destroy]
      ensures testRunnerFile == old(testRunnerFile)
    {
      if process.Some? {
        log.Record(Destroy);
        process := Some(process.value.(destroyed := true));
      }
    }
  }
}
