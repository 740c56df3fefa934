/**
 * The parts of `java.net.URL` the runner relies on: a URL built from a
 * protocol, host, port and file, its string form and its path.
 */
module Urls {
  import opened Outcomes
  import opened Strings

  /**
   * An http URL: host, port (-1 for none), the file part (path and
   * query) and the fragment after `#`, if any.
   */
  datatype Url = Url(host: string, port: int, file: string, ref: Option<string>)

  /**
   * `new URL("http", host, port, file)`: a host holding `:` is put in
   * brackets, and the text after the first `#` of `file` becomes the
   * fragment. None stands for the MalformedURLException a port below -1 raises.
   */
  function MakeUrl(host: string, port: int, file: string): (r: Option<Url>)
    ensures r.Some? <==> port >= -1
    ensures '#' !in file && ':' !in host ==> r.Some? ==> r.value == Url(host, port, file, None)
  {
    if port < -1 then None
    else
      var h := if ':' in host && (|host| == 0 || host[0] != '[') then "[" + host + "]" else host;
      var ind := IndexOf(file, '#');
      if ind.None? then Some(Url(h, port, file, None))
      else Some(Url(h, port, file[..ind.value], Some(file[ind.value + 1..])))
  }

  /** `URL.getAuthority()`: the host, followed by `:port` unless the port is -1. */
  function Authority(u: Url): (r: string)
    ensures u.port == -1 ==> r == u.host
    ensures u.port != -1 ==> |r| > |u.host| && r[..|u.host|] == u.host && r[|u.host|] == ':' && r[|u.host| + 1..] == IntToString(u.port)
  {
    u.host + (if u.port == -1 then "" else ":" + IntToString(u.port))
  }

  /**
   * `URL.toString()`: "http:", then "//" and the authority only when the
   * authority is not empty, then the file and `#` with the fragment, if any.
   */
  function ToString(u: Url): string
  {
    var authority := Authority(u);
    "http:" + (if authority == [] then "" else "//" + authority) + (u.file + Fragment(u))
  }

  /** Where the scheme, the authority, the file and the fragment sit in the string form. */
  lemma ToStringShape(u: Url)
    ensures var r := ToString(u);
      |r| >= 5 && r[..5] == "http:" &&
      (Authority(u) != [] ==> |r| >= 7 + |Authority(u)| && r[5..7 + |Authority(u)|] == "//" + Authority(u)) &&
      (Authority(u) == [] ==> r[5..] == u.file + Fragment(u)) &&
      (u.ref.None? ==> |r| >= |u.file| && r[|r| - |u.file|..] == u.file) &&
      (u.ref.Some? ==> |r| > |u.ref.value| && r[|r| - |u.ref.value| - 1..] == "#" + u.ref.value)
  {
    var authority := Authority(u);
    var head := if authority == [] then "" else "//" + authority;
    Pieces("http:", head, u.file + Fragment(u));
    Pieces("http:" + head, u.file, Fragment(u));
  }

  /** `#` and the fragment, or nothing when there is none. */
  function Fragment(u: Url): (r: string)
    ensures u.ref.None? ==> r == []
    ensures u.ref.Some? ==> r == "#" + u.ref.value
  {
    if u.ref.Some? then "#" + u.ref.value else ""
  }

  /** Where each piece of a concatenation of three sits. */
  lemma Pieces(a: string, b: string, c: string)
    ensures var s := a + b + c;
      |s| == |a| + |b| + |c| && s[..|a|] == a && s[|a|..] == b + c && s[|a|..|a| + |b|] == b && s[|a| + |b|..] == c
  {
    var s := a + b + c;
    assert s[..|a|] == a;
    assert s[|a|..] == b + c;
  }

  /** `URL.getPath()`: the file part up to its last `?`. */
  function Path(u: Url): (r: string)
    ensures '?' !in u.file ==> r == u.file
    ensures |r| <= |u.file| && r == u.file[..|r|]
  {
    var q := LastIndexOf(u.file, '?');
    if q.None? then u.file else u.file[..q.value]
  }
}
