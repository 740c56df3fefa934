/**
 * String helpers shared by the Java side and the bootstrap script:
 * joining with a separator, JavaScript's one-character `split`, Java's
 * `String.split`, decimal rendering of integers and Java's
 * `Integer.valueOf`.
 */
module Strings {
  import opened Outcomes

  /** The elements of `xs` separated by `sep`; the empty list gives "". */
  function Join(xs: seq<string>, sep: char): string
  {
    if |xs| == 0 then ""
    else if |xs| == 1 then xs[0]
    else xs[0] + [sep] + Join(xs[1..], sep)
  }

  /** The lists of `xss` one after the other. */
  function Concat<T>(xss: seq<seq<T>>): seq<T>
  {
    if |xss| == 0 then [] else Concat(xss[..|xss| - 1]) + xss[|xss| - 1]
  }

  /** Concatenation distributes over splitting the list of lists. */
  lemma {:induction false} ConcatAppend<T>(a: seq<seq<T>>, b: seq<seq<T>>)
    ensures Concat(a + b) == Concat(a) + Concat(b)
  {
    if |b| == 0 {
      assert a + b == a;
    } else {
      ConcatAppend(a, b[..|b| - 1]);
      assert (a + b)[..|a + b| - 1] == a + b[..|b| - 1];
    }
  }

  /** `f` applied to each element of `xs`, in order. */
  function Map<A, B>(f: A -> B, xs: seq<A>): (r: seq<B>)
    ensures |r| == |xs|
    ensures forall i :: 0 <= i < |xs| ==> r[i] == f(xs[i])
  {
    if |xs| == 0 then [] else Map(f, xs[..|xs| - 1]) + [f(xs[|xs| - 1])]
  }

  lemma MapAppend<A, B>(f: A -> B, a: seq<A>, b: seq<A>)
    ensures Map(f, a + b) == Map(f, a) + Map(f, b)
  {
    assert forall i :: 0 <= i < |a + b| ==> Map(f, a + b)[i] == (Map(f, a) + Map(f, b))[i];
  }

  lemma MapSnoc<A, B>(f: A -> B, xs: seq<A>, x: A)
    ensures Map(f, xs + [x]) == Map(f, xs) + [f(x)]
  {
    assert (xs + [x])[..|xs|] == xs;
  }

  /** Joining one more element adds one more separator, once there is an element. */
  lemma {:induction false} JoinSnoc(xs: seq<string>, x: string, sep: char)
    requires |xs| >= 1
    ensures Join(xs + [x], sep) == Join(xs, sep) + [sep] + x
  {
    if |xs| > 1 {
      JoinSnoc(xs[1..], x, sep);
      assert (xs + [x])[1..] == xs[1..] + [x];
    } else {
      assert (xs + [x])[1..] == [x];
    }
  }

  /**
   * JavaScript's `s.split(sep)` for a one-character separator: the pieces
   * between separators, empty pieces included, and always at least one.
   */
  function Split(s: string, sep: char): (r: seq<string>)
    ensures |r| >= 1
    ensures forall i :: 0 <= i < |r| ==> sep !in r[i]
  {
    if |s| == 0 then [""]
    else
      var rest := Split(s[1..], sep);
      if s[0] == sep then [""] + rest
      else [[s[0]] + rest[0]] + rest[1..]
  }

  /** Each separator adds one piece. */
  lemma {:induction false} SplitLength(s: string, sep: char)
    ensures |Split(s, sep)| == multiset(s)[sep] + 1
  {
    if |s| > 0 {
      SplitLength(s[1..], sep);
      assert s == [s[0]] + s[1..];
    }
  }

  /** A piece without separator splits to itself. */
  lemma {:induction false} SplitNoSeparator(x: string, sep: char)
    requires sep !in x
    ensures Split(x, sep) == [x]
  {
    if |x| > 0 {
      assert sep !in x[1..] by {
        forall i | 0 <= i < |x[1..]| ensures x[1..][i] != sep { assert x[1..][i] == x[i + 1]; }
      }
      SplitNoSeparator(x[1..], sep);
      assert [x[0]] + x[1..] == x;
    }
  }

  /** A separator after a separator-free piece cuts exactly there. */
  lemma {:induction false} SplitAfterPiece(x: string, sep: char, rest: string)
    requires sep !in x
    ensures Split(x + [sep] + rest, sep) == [x] + Split(rest, sep)
  {
    if |x| == 0 {
      assert x + [sep] + rest == [sep] + rest;
      assert ([sep] + rest)[1..] == rest;
    } else {
      assert sep !in x[1..] by {
        forall i | 0 <= i < |x[1..]| ensures x[1..][i] != sep { assert x[1..][i] == x[i + 1]; }
      }
      SplitAfterPiece(x[1..], sep, rest);
      assert (x + [sep] + rest)[1..] == x[1..] + [sep] + rest;
      assert (x + [sep] + rest)[0] == x[0];
      assert [x[0]] + x[1..] == x;
    }
  }

  /** Splitting undoes joining, provided no element holds the separator. */
  lemma {:induction false} SplitJoin(xs: seq<string>, sep: char)
    requires |xs| >= 1
    requires forall i :: 0 <= i < |xs| ==> sep !in xs[i]
    ensures Split(Join(xs, sep), sep) == xs
  {
    if |xs| == 1 {
      SplitNoSeparator(xs[0], sep);
    } else {
      SplitJoin(xs[1..], sep);
      SplitAfterPiece(xs[0], sep, Join(xs[1..], sep));
      assert [xs[0]] + xs[1..] == xs;
    }
  }

  /** Joining undoes splitting, for every string. */
  lemma {:induction false} JoinSplit(s: string, sep: char)
    ensures Join(Split(s, sep), sep) == s
  {
    if |s| > 0 {
      JoinSplit(s[1..], sep);
      var rest := Split(s[1..], sep);
      assert s == [s[0]] + s[1..];
      if s[0] != sep {
        if |rest| > 1 {
          assert ([[s[0]] + rest[0]] + rest[1..])[1..] == rest[1..];
        }
      }
    }
  }

  /** Appending a separator to the input opens a new, empty last piece. */
  lemma {:induction false} SplitSnocSeparator(s: string, sep: char)
    ensures Split(s + [sep], sep) == Split(s, sep) + [""]
  {
    if |s| == 0 {
      assert s + [sep] == [sep];
    } else {
      SplitSnocSeparator(s[1..], sep);
      assert (s + [sep])[1..] == s[1..] + [sep];
      assert (s + [sep])[0] == s[0];
    }
  }

  /** Appending a character other than the separator extends the last piece (the property below). */
  predicate ExtendsLastPiece(s: string, c: char, sep: char)
  {
    var p := Split(s, sep);
    Split(s + [c], sep) == p[|p| - 1 := p[|p| - 1] + [c]]
  }

  lemma ExtendsLastPieceEmpty(c: char, sep: char)
    requires c != sep
    ensures ExtendsLastPiece([], c, sep)
  {
    assert [] + [c] == [c];
    assert [c][1..] == [];
    assert [c] + "" == [c];
    assert [""][1..] == [];
    assert Split([c], sep) == [[c]];
  }

  lemma ExtendsLastPieceCons(s: string, c: char, sep: char)
    requires c != sep && |s| > 0 && ExtendsLastPiece(s[1..], c, sep)
    ensures ExtendsLastPiece(s, c, sep)
  {
    assert (s + [c])[1..] == s[1..] + [c];
    assert (s + [c])[0] == s[0];
    var q := Split(s[1..], sep);
    if s[0] != sep && |q| == 1 {
      assert [s[0]] + (q[0] + [c]) == ([s[0]] + q[0]) + [c];
    }
  }

  /** Appending any other character to the input extends the last piece. */
  lemma {:induction false} SplitSnocOther(s: string, c: char, sep: char)
    requires c != sep
    ensures var p := Split(s, sep);
      Split(s + [c], sep) == p[|p| - 1 := p[|p| - 1] + [c]]
  {
    if |s| == 0 {
      ExtendsLastPieceEmpty(c, sep);
    } else {
      SplitSnocOther(s[1..], c, sep);
      ExtendsLastPieceCons(s, c, sep);
    }
  }

  /** `s` with every trailing `c` removed. */
  function StripTrailing(s: string, c: char): (r: string)
    ensures |r| <= |s| && r == s[..|r|]
    ensures |r| > 0 ==> r[|r| - 1] != c
    ensures forall i :: |r| <= i < |s| ==> s[i] == c
  {
    if |s| > 0 && s[|s| - 1] == c then StripTrailing(s[..|s| - 1], c) else s
  }

  /** `xs` without its trailing empty strings. */
  function DropTrailingEmpty(xs: seq<string>): (r: seq<string>)
    ensures |r| <= |xs| && r == xs[..|r|]
    ensures |r| > 0 ==> r[|r| - 1] != ""
    ensures forall i :: |r| <= i < |xs| ==> xs[i] == ""
  {
    if |xs| > 0 && xs[|xs| - 1] == "" then DropTrailingEmpty(xs[..|xs| - 1]) else xs
  }

  /**
   * Java's `s.split(regex)` for a regex that is one plain character: the
   * input itself when the character does not occur, otherwise the pieces
   * with trailing empty strings removed.
   */
  function JavaSplit(s: string, sep: char): seq<string>
  {
    if sep !in s then [s] else DropTrailingEmpty(Split(s, sep))
  }

  /** Trailing separators only add trailing empty pieces, which Java drops. */
  lemma {:induction false} JavaSplitStripped(s: string, sep: char)
    requires sep in s
    ensures JavaSplit(s, sep) == DropTrailingEmpty(Split(StripTrailing(s, sep), sep))
  {
    if |s| > 0 && s[|s| - 1] == sep {
      var init := s[..|s| - 1];
      assert s == init + [sep];
      SplitSnocSeparator(init, sep);
      assert DropTrailingEmpty(Split(s, sep)) == DropTrailingEmpty(Split(init, sep));
      if sep in init {
        JavaSplitStripped(init, sep);
      } else {
        SplitNoSeparator(init, sep);
        assert StripTrailing(s, sep) == StripTrailing(init, sep);
      }
    }
  }

  /**
   * Java's `split` on a one-character separator yields exactly two parts
   * iff, once trailing separators are removed, exactly one separator is left.
   */
  lemma {:induction false} JavaSplitTwoParts(s: string, sep: char)
    ensures |JavaSplit(s, sep)| == 2 <==> multiset(StripTrailing(s, sep))[sep] == 1
  {
    var t := StripTrailing(s, sep);
    if sep in s {
      JavaSplitStripped(s, sep);
      var p := Split(t, sep);
      SplitLength(t, sep);
      if |t| == 0 {
        assert p == [""];
      } else {
        var init := t[..|t| - 1];
        assert t == init + [t[|t| - 1]];
        SplitSnocOther(init, t[|t| - 1], sep);
        assert p[|p| - 1] != "";
      }
    } else {
      assert t == s[..|t|];
      assert forall i :: 0 <= i < |t| ==> t[i] == s[i];
      assert sep !in t;
    }
  }

  /** The index of the first `c` in `s`, if any. */
  function IndexOf(s: string, c: char): (r: Option<nat>)
    ensures r.None? <==> c !in s
    ensures r.Some? ==> r.value < |s| && s[r.value] == c && c !in s[..r.value]
  {
    if |s| == 0 then None
    else if s[0] == c then Some(0)
    else
      var rest := IndexOf(s[1..], c);
      assert s == [s[0]] + s[1..];
      if rest.None? then None
      else
        assert s[..rest.value + 1] == [s[0]] + s[1..][..rest.value];
        Some(rest.value + 1)
  }

  /** The index of the last `c` in `s`, if any. */
  function LastIndexOf(s: string, c: char): (r: Option<nat>)
    ensures r.None? <==> c !in s
    ensures r.Some? ==> r.value < |s| && s[r.value] == c && c !in s[r.value + 1..]
  {
    if |s| == 0 then None
    else if s[|s| - 1] == c then Some(|s| - 1)
    else
      var init := s[..|s| - 1];
      assert s == init + [s[|s| - 1]];
      var r := LastIndexOf(init, c);
      if r.Some? then
        assert s[r.value + 1..] == init[r.value + 1..] + [s[|s| - 1]];
        r
      else None
  }

  /** `s.replace(from, to)` for single characters: every `from` becomes `to`. */
  function Replace(s: string, from: char, to: char): (r: string)
    ensures |r| == |s|
    ensures forall i :: 0 <= i < |s| ==> r[i] == if s[i] == from then to else s[i]
  {
    if |s| == 0 then "" else [if s[0] == from then to else s[0]] + Replace(s[1..], from, to)
  }

  // ---- Decimal numbers ----

  const MIN_INT: int := -0x8000_0000
  const MAX_INT: int := 0x7fff_ffff

  predicate IsDigit(c: char)
  {
    '0' <= c <= '9'
  }

  predicate AllDigits(s: string)
  {
    forall i :: 0 <= i < |s| ==> IsDigit(s[i])
  }

  function DigitChar(d: nat): (c: char)
    requires d < 10
    ensures IsDigit(c) && (c as int) - ('0' as int) == d
  {
    ('0' as int + d) as char
  }

  /** The decimal digits of `n`, most significant first, without leading zeros. */
  function NatToString(n: nat): (r: string)
    ensures |r| >= 1 && AllDigits(r)
    ensures |r| > 1 ==> r[0] != '0'
  {
    if n < 10 then [DigitChar(n)] else NatToString(n / 10) + [DigitChar(n % 10)]
  }

  /** The decimal rendering of an integer, as Java's and JavaScript's string concatenation produce it. */
  function IntToString(n: int): (r: string)
    ensures |r| >= 1
    ensures n >= 0 <==> IsDigit(r[0])
  {
    if n < 0 then "-" + NatToString(-n) else NatToString(n)
  }

  /** The value of a string of decimal digits, leading zeros allowed. */
  function DigitsValue(s: string): nat
    requires AllDigits(s)
  {
    if |s| == 0 then 0
    else DigitsValue(s[..|s| - 1]) * 10 + ((s[|s| - 1] as int) - ('0' as int))
  }

  /** An optional `+` or `-` followed by at least one decimal digit. */
  predicate Numeral(s: string)
  {
    if |s| > 0 && (s[0] == '-' || s[0] == '+') then |s| >= 2 && AllDigits(s[1..])
    else |s| >= 1 && AllDigits(s)
  }

  /** The value a numeral denotes: its digits' value, negated after a `-`. */
  function NumeralValue(s: string): int
    requires Numeral(s)
  {
    if s[0] == '-' then -(DigitsValue(s[1..]) as int)
    else if s[0] == '+' then DigitsValue(s[1..])
    else DigitsValue(s)
  }

  /**
   * Java's `Integer.valueOf(s)` with ASCII digits: the value of an
   * optional sign and at least one digit, when it fits in 32 bits; None
   * stands for the NumberFormatException.
   */
  function ParseInt(s: string): (r: Option<int>)
    ensures r.Some? <==> Numeral(s) && MIN_INT <= NumeralValue(s) <= MAX_INT
    ensures r.Some? ==> r.value == NumeralValue(s)
  {
    if |s| == 0 then None
    else if s[0] == '-' || s[0] == '+' then
      var body := s[1..];
      if |body| == 0 || !AllDigits(body) then None
      else
        var magnitude: int := DigitsValue(body);
        var v := if s[0] == '-' then -magnitude else magnitude;
        if MIN_INT <= v <= MAX_INT then Some(v) else None
    else if !AllDigits(s) then None
    else if DigitsValue(s) <= MAX_INT then Some(DigitsValue(s))
    else None
  }

  lemma DigitsEighty()
    ensures AllDigits("80") && DigitsValue("80") == 80
    ensures AllDigits("0080") && DigitsValue("0080") == 80
  {
    assert "80"[..1] == "8" && "8"[..0] == "";
    assert "0080"[..3] == "008" && "008"[..2] == "00" && "00"[..1] == "0" && "0"[..0] == "";
    assert "008"[..1] == "0";
  }

  /** A leading `+`, leading zeros and `-0` are accepted; a bare sign is not. */
  lemma ParseIntExamples()
    ensures ParseInt("+80") == Some(80) && ParseInt("0080") == Some(80) && ParseInt("-0") == Some(0)
    ensures ParseInt("-") == None && ParseInt("+") == None
  {
    DigitsEighty();
    assert "+80"[1..] == "80";
    assert "-0"[1..] == "0" && "0"[..0] == "";
  }

  lemma {:induction false} DigitsValueNatToString(n: nat)
    ensures DigitsValue(NatToString(n)) == n
  {
    if n >= 10 {
      DigitsValueNatToString(n / 10);
      var s := NatToString(n);
      assert s[..|s| - 1] == NatToString(n / 10);
    }
  }

  /** Parsing undoes rendering for every 32-bit integer. */
  lemma ParseIntToString(n: int)
    requires MIN_INT <= n <= MAX_INT
    ensures ParseInt(IntToString(n)) == Some(n)
  {
    var s := IntToString(n);
    if n < 0 {
      DigitsValueNatToString(-n);
      assert s[0] == '-' && s[1..] == NatToString(-n);
    } else {
      DigitsValueNatToString(n);
      assert s == NatToString(n) && IsDigit(s[0]);
    }
  }
}
